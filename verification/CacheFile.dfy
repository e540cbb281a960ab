/** Every token of one cache file: the sweep's over the whole of it, and, of the files the line scanner reads
    too, both merged. */
module CacheFile {
  import opened Utf8
  import opened Wrappers
  import opened PatternLeads
  import opened NeedleBuckets
  import PatternSweep
  import TokenClaims
  import LineScan
  import TextTokens
  import TokenMerge

  type Span = TokenClaims.Span
  type Needles = seq<PatternSweep.Needle>

  // ---- the sweep ----

  /** What running a pattern at one place finds: where the match ends, and whether the exclusions and the
      placeholder check let it pass. */
  datatype Hit = Hit(hi: nat, ok: bool)

  type MatchAt = (nat, nat) -> Option<Hit>

  /** A match is not empty, and lies in the file. */
  ghost predicate Finds(data: Text, matchAt: MatchAt) {
    forall p: nat, at: nat :: matchAt(p, at).Some? ==> at < matchAt(p, at).value.hi <= |data|
  }

  /** `x` is the match found at a place where a needle of its pattern begins. */
  ghost predicate Swept(data: Text, needles: Needles, matchAt: MatchAt, x: Span) {
    && matchAt(x.pat, x.lo) == Some(Hit(x.hi, x.ok))
    && exists n :: 0 <= n < |needles| && needles[n].pattern == x.pat
         && PatternSweep.Found(data, needles, PatternSweep.Cand(x.lo, n))
  }

  /** `out` is the choice by place over all that was swept. */
  ghost predicate SweepOf(data: Text, needles: Needles, matchAt: MatchAt, out: seq<Span>) {
    exists all: set<Span> ::
      && (forall x :: x in all <==> Swept(data, needles, matchAt, x))
      && TokenClaims.Chosen(TokenClaims.ByPlace, all, TokenClaims.SetOf(out))
  }

  function FoundAt(matchAt: MatchAt, p: nat, at: nat): seq<Span> {
    match matchAt(p, at)
    case None => []
    case Some(h) => [TokenClaims.Span(at, h.hi, p, h.ok)]
  }

  function HitOf(needles: Needles, matchAt: MatchAt, c: PatternSweep.Cand): TokenClaims.Hit
    requires c.needle < |needles|
  {
    var n := needles[c.needle];
    TokenClaims.Hit(c.at, |n.lit|, n.pattern, FoundAt(matchAt, n.pattern, c.at))
  }

  ghost predicate ByPattern(needles: Needles) {
    forall m, n :: 0 <= m < n < |needles| ==> needles[m].pattern <= needles[n].pattern
  }

  ghost predicate AllFound(data: Text, needles: Needles, cands: seq<PatternSweep.Cand>) {
    forall k :: 0 <= k < |cands| ==> PatternSweep.Found(data, needles, cands[k])
  }

  function HitsOf(needles: Needles, matchAt: MatchAt, cands: seq<PatternSweep.Cand>): (hits: seq<TokenClaims.Hit>)
    requires forall k :: 0 <= k < |cands| ==> cands[k].needle < |needles|
    ensures |hits| == |cands| && forall k :: 0 <= k < |cands| ==> hits[k] == HitOf(needles, matchAt, cands[k])
  {
    seq(|cands|, k requires 0 <= k < |cands| => HitOf(needles, matchAt, cands[k]))
  }

  /** The candidates come sorted by place and then by pattern, so the sort has nothing to move. */
  lemma HitsSorted(data: Text, needles: Needles, matchAt: MatchAt, cands: seq<PatternSweep.Cand>)
    requires Finds(data, matchAt) && ByPattern(needles) && AllFound(data, needles, cands)
    requires PatternSweep.InOrder(cands)
    ensures TokenClaims.Sorted(HitsOf(needles, matchAt, cands))
  {
    var hits := HitsOf(needles, matchAt, cands);
    forall k | 0 <= k < |hits| ensures TokenClaims.WellFound(hits[k]) {
      assert PatternSweep.Found(data, needles, cands[k]);
    }
    forall i, j | 0 <= i < j < |hits|
      ensures hits[i].at < hits[j].at || (hits[i].at == hits[j].at && hits[i].pat <= hits[j].pat) {
      assert PatternSweep.Before(cands[i], cands[j]);
    }
  }

  lemma SpanIsSwept(data: Text, needles: Needles, matchAt: MatchAt, cands: seq<PatternSweep.Cand>, x: Span)
    requires AllFound(data, needles, cands) && x in TokenClaims.Spans(HitsOf(needles, matchAt, cands))
    ensures Swept(data, needles, matchAt, x)
  {
    var hits := HitsOf(needles, matchAt, cands);
    var h :| h in hits && x in h.found;
    var k :| 0 <= k < |hits| && hits[k] == h;
    assert PatternSweep.Found(data, needles, cands[k]);
    assert cands[k] == PatternSweep.Cand(x.lo, cands[k].needle);
  }

  lemma SweptIsSpan(data: Text, needles: Needles, matchAt: MatchAt, cands: seq<PatternSweep.Cand>, x: Span)
    requires AllFound(data, needles, cands) && Swept(data, needles, matchAt, x)
    requires forall c :: PatternSweep.Found(data, needles, c) ==> c in cands
    ensures x in TokenClaims.Spans(HitsOf(needles, matchAt, cands))
  {
    var hits := HitsOf(needles, matchAt, cands);
    var n :| 0 <= n < |needles| && needles[n].pattern == x.pat
      && PatternSweep.Found(data, needles, PatternSweep.Cand(x.lo, n));
    var k :| 0 <= k < |cands| && cands[k] == PatternSweep.Cand(x.lo, n);
    assert hits[k] == HitOf(needles, matchAt, cands[k]) && hits[k].found == [x];
    assert hits[k] in hits && x in hits[k].found;
  }

  /** The vendor matches of the file, none overlapping another. */
  method Matches(ix: PatternSweep.LeadIndex, ghost table: seq<Regex>, data: Text, matchAt: MatchAt)
    returns (out: seq<Span>)
    requires ix.Valid() && ix.needles == PatternSweep.NeedlesOf(table) && Finds(data, matchAt)
    ensures SweepOf(data, ix.needles, matchAt, out) && TokenClaims.Ascending(out)
    ensures forall x :: x in out ==> Swept(data, ix.needles, matchAt, x)
  {
    var cands := ix.Candidates(data);
    forall k | 0 <= k < |cands| ensures PatternSweep.Found(data, ix.needles, cands[k]) {
      assert cands[k] in cands;
    }
    PatternSweep.NeedlesOrdered(table);
    HitsSorted(data, ix.needles, matchAt, cands);
    var hits := HitsOf(ix.needles, matchAt, cands);
    out := TokenClaims.Sweep(hits);
    forall x ensures x in TokenClaims.Spans(hits) <==> Swept(data, ix.needles, matchAt, x) {
      if x in TokenClaims.Spans(hits) {
        SpanIsSwept(data, ix.needles, matchAt, cands, x);
      }
      if Swept(data, ix.needles, matchAt, x) {
        SweptIsSpan(data, ix.needles, matchAt, cands, x);
      }
    }
  }

  /** What `matchAt` finds is a match of the pattern, and it finds one wherever one begins. */
  ghost predicate Faithful(e: Engine, table: seq<Regex>, data: Text, matchAt: MatchAt) {
    forall p: nat, at: nat :: p < |table| && at <= |data| ==>
      && (matchAt(p, at).Some? ==> Match(e, table[p], data, at, matchAt(p, at).value.hi))
      && (forall j: nat :: Match(e, table[p], data, at, j) ==> matchAt(p, at).Some?)
  }

  /** The sweep misses nothing: of a pattern with fixed first bytes, and none of them doubtful, every match
      anywhere in the file is among what it chooses from. */
  lemma SweepMissesNone(e: Engine, table: seq<Regex>, data: Text, matchAt: MatchAt, p: nat, at: nat, j: nat)
    requires PatternSweep.ParsedTable(table) && Finds(data, matchAt) && Faithful(e, table, data, matchAt)
    requires p < |table| && Fixed(table[p]) && Doubtless(table[p])
    requires at <= |data| && Match(e, table[p], data, at, j)
    ensures matchAt(p, at).Some? && Swept(data, PatternSweep.NeedlesOf(table), matchAt,
        TokenClaims.Span(at, matchAt(p, at).value.hi, p, matchAt(p, at).value.ok))
  {
    PatternSweep.MatchStartIsCandidate(e, table, p, data, at, j);
  }

  // ---- the lines ----

  /** What each pattern matches of one line, left to right. */
  type Scan = Text -> seq<seq<Span>>

  ghost predicate InLines(scan: Scan) {
    forall t: Text ::
      TokenClaims.Table(scan(t)) && forall x :: x in TokenClaims.All(scan(t)) ==> x.hi <= |t|
  }

  function ClaimsOf(spans: seq<Span>): seq<TextTokens.Claim> {
    seq(|spans|, k requires 0 <= k < |spans| => TextTokens.Claim(spans[k].lo, spans[k].hi))
  }

  /** The line scanner's claims of one line. */
  function Finder(scan: Scan): TextTokens.Matcher {
    (t: Text) => ClaimsOf(TokenClaims.ClaimTable(scan(t)))
  }

  lemma ClaimsAreInTable(t: seq<seq<Span>>, x: Span)
    requires TokenClaims.Table(t) && x in TokenClaims.ClaimTable(t)
    ensures x in TokenClaims.All(t) && x.lo < x.hi
  {
    TokenClaims.ClaimsChosen(t);
    assert x in TokenClaims.SetOf(TokenClaims.ClaimTable(t));
    TokenClaims.ReportedIsFindAll(t, x);
  }

  /** They are the choice by place in the table over what the patterns report of the line. */
  lemma FinderChooses(scan: Scan, t: Text)
    requires InLines(scan)
    ensures exists spans: seq<Span> ::
      && TokenClaims.Chosen(TokenClaims.ByTable, TokenClaims.Reported(scan(t)), TokenClaims.SetOf(spans))
      && |spans| == |Finder(scan)(t)|
      && forall k :: 0 <= k < |spans| ==> Finder(scan)(t)[k] == TextTokens.Claim(spans[k].lo, spans[k].hi)
  {
    hide TokenClaims.ClaimTable, TokenClaims.Chosen, TokenClaims.Reported;
    TokenClaims.ClaimsChosen(scan(t));
    var spans := TokenClaims.ClaimTable(scan(t));
    assert |spans| == |Finder(scan)(t)|;
  }

  /** One line's claims do not overlap. */
  ghost predicate Parted(claims: seq<TextTokens.Claim>) {
    && (forall i :: 0 <= i < |claims| ==> claims[i].lo < claims[i].hi)
    && forall i, j :: 0 <= i < j < |claims| ==> claims[i].hi <= claims[j].lo || claims[j].hi <= claims[i].lo
  }

  lemma ClaimsFit(scan: Scan, t: Text)
    requires InLines(scan)
    ensures var claims := Finder(scan)(t);
      Parted(claims) && forall k :: 0 <= k < |claims| ==> claims[k].lo <= claims[k].hi <= |t|
  {
    hide TokenClaims.ClaimTable, TokenClaims.Chosen, TokenClaims.Table, TokenClaims.Reported;
    var spans := TokenClaims.ClaimTable(scan(t));
    TokenClaims.ClaimsChosen(scan(t));
    forall k | 0 <= k < |spans| ensures spans[k].lo < spans[k].hi <= |t| {
      ClaimsAreInTable(scan(t), spans[k]);
    }
  }

  lemma FinderFits(scan: Scan)
    requires InLines(scan)
    ensures TextTokens.InLine(Finder(scan)) && forall t: Text :: Parted(Finder(scan)(t))
  {
    hide InLines, Parted, Finder;
    forall t: Text ensures Parted(Finder(scan)(t))
        && forall k :: 0 <= k < |Finder(scan)(t)| ==> Finder(scan)(t)[k].lo <= Finder(scan)(t)[k].hi <= |t| {
      ClaimsFit(scan, t);
    }
  }

  /** Tokens in the order of their lines, those of one line apart, and each inside what was read of its line. */
  ghost predicate ByLine(texts: seq<Text>, found: seq<TextTokens.Token>) {
    && (forall i :: 0 <= i < |found| ==>
          1 <= found[i].line <= |texts| && found[i].lo < found[i].hi <= |texts[found[i].line - 1]|)
    && forall i, j :: 0 <= i < j < |found| ==>
         || found[i].line < found[j].line
         || (found[i].line == found[j].line && (found[i].hi <= found[j].lo || found[j].hi <= found[i].lo))
  }

  lemma {:induction false} FoundByLine(texts: seq<Text>, find: TextTokens.Matcher)
    requires TextTokens.InLine(find) && forall t: Text :: Parted(find(t))
    ensures ByLine(texts, TextTokens.Found(texts, find))
  {
    if texts != [] {
      var n := |texts| - 1;
      FoundByLine(texts[..n], find);
      var front, last := TextTokens.Found(texts[..n], find), TextTokens.Taken(texts[n], n + 1, find(texts[n]));
      assert Parted(find(texts[n]));
      ByLineMore(texts, n, front, last);
    }
  }

  lemma ByLineMore(texts: seq<Text>, n: nat, front: seq<TextTokens.Token>, last: seq<TextTokens.Token>)
    requires n < |texts| && ByLine(texts[..n], front)
    requires forall i :: 0 <= i < |last| ==> last[i].line == n + 1 && last[i].lo < last[i].hi <= |texts[n]|
    requires forall i, j :: 0 <= i < j < |last| ==> last[i].hi <= last[j].lo || last[j].hi <= last[i].lo
    ensures ByLine(texts, front + last)
  {
    forall i | 0 <= i < |front|
      ensures front[i].line <= n && texts[..n][front[i].line - 1] == texts[front[i].line - 1] {
    }
  }

  ghost predicate OneAfterAnother(ls: seq<LineScan.Line>) {
    forall i, j :: 0 <= i < j < |ls| ==> ls[i].hi <= ls[j].lo
  }

  lemma {:induction false} LinesInOrder(data: Text, p: nat)
    ensures OneAfterAnother(LineScan.Lines(data, p))
    decreases |data| - p
  {
    if p < |data| {
      var e := LineScan.LineEnd(data, p);
      LinesInOrder(data, e + 1);
      assert LineScan.Lines(data, p) == [LineScan.Line(p, e)] + LineScan.Lines(data, e + 1);
    }
  }

  ghost predicate Separate(tokens: seq<TextTokens.Token>) {
    && (forall i :: 0 <= i < |tokens| ==> tokens[i].lo < tokens[i].hi)
    && forall i, j :: 0 <= i < j < |tokens| ==> tokens[i].hi <= tokens[j].lo || tokens[j].hi <= tokens[i].lo
  }

  /** Each inside its own line, those of one line apart. */
  ghost predicate InOwnLine(ls: seq<LineScan.Line>, found: seq<TextTokens.Token>) {
    && (forall i :: 0 <= i < |found| ==>
          && 1 <= found[i].line <= |ls|
          && found[i].lo < found[i].hi <= ls[found[i].line - 1].hi - ls[found[i].line - 1].lo)
    && forall i, j :: 0 <= i < j < |found| ==>
         || found[i].line < found[j].line
         || (found[i].line == found[j].line && (found[i].hi <= found[j].lo || found[j].hi <= found[i].lo))
  }

  lemma ReadInLine(data: Text, limit: nat, ls: seq<LineScan.Line>, texts: seq<Text>, found: seq<TextTokens.Token>)
    requires TextTokens.ReadOff(data, limit, ls, texts) && ByLine(texts, found)
    ensures InOwnLine(ls, found)
  {
    forall k | 0 <= k < |ls| ensures |texts[k]| <= ls[k].hi - ls[k].lo {
      assert TextTokens.ReadAt(data, limit, ls[k], texts[k]);
      LineScan.ReadingIsPrefix(data[ls[k].lo..ls[k].hi], limit, texts[k]);
    }
  }

  ghost predicate AllInFile(data: Text, ls: seq<LineScan.Line>, found: seq<TextTokens.Token>,
      tokens: seq<TextTokens.Token>) {
    |tokens| == |found| && forall i :: 0 <= i < |tokens| ==> TextTokens.InFile(data, ls, found[i], tokens[i])
  }

  /** So in the file no two overlap. */
  lemma FileMatchesApart(data: Text, limit: nat, scan: Scan, tokens: seq<TextTokens.Token>)
    requires InLines(scan) && TextTokens.InLine(Finder(scan))
    requires TextTokens.FileMatches(data, limit, Finder(scan), tokens)
    ensures Separate(tokens)
  {
    hide InLines, Parted, ByLine, TextTokens.ReadOff, TextTokens.Found, LineScan.Lines, InOwnLine, TextTokens.InFile,
      Finder, TextTokens.InLine;
    var find, ls := Finder(scan), LineScan.Lines(data, 0);
    FinderFits(scan);
    var found: seq<TextTokens.Token> :| TextTokens.LineMatches(data, limit, find, found)
      && |tokens| == |found| && forall i :: 0 <= i < |tokens| ==> TextTokens.InFile(data, ls, found[i], tokens[i]);
    var texts: seq<Text> :| TextTokens.ReadOff(data, limit, ls, texts) && found == TextTokens.Found(texts, find);
    FoundByLine(texts, find);
    LinesInOrder(data, 0);
    ReadInLine(data, limit, ls, texts, found);
    PlacedApart(data, ls, found, tokens);
  }

  lemma PlacedApart(data: Text, ls: seq<LineScan.Line>, found: seq<TextTokens.Token>, tokens: seq<TextTokens.Token>)
    requires AllInFile(data, ls, found, tokens) && InOwnLine(ls, found)
    requires OneAfterAnother(ls)
    ensures Separate(tokens)
  {
    forall i, j | 0 <= i < j < |tokens| ensures tokens[i].hi <= tokens[j].lo || tokens[j].hi <= tokens[i].lo {
      assert TextTokens.InFile(data, ls, found[i], tokens[i]) && TextTokens.InFile(data, ls, found[j], tokens[j]);
      if found[i].line < found[j].line {
        assert ls[found[i].line - 1].hi <= ls[found[j].line - 1].lo;
      }
    }
  }

  // ---- both ----

  const MAX_CONTENT_SCAN_SIZE := 5 * 1024 * 1024

  function FromSweep(data: Text, swept: seq<Span>): (tokens: seq<TokenMerge.Token>)
    requires forall x :: x in swept ==> x.lo <= x.hi <= |data|
    ensures |tokens| == |swept| && forall k :: 0 <= k < |swept| ==>
      tokens[k] == TokenMerge.Token(swept[k].lo, swept[k].hi, true, data[swept[k].lo..swept[k].hi])
  {
    seq(|swept|, k requires 0 <= k < |swept| =>
      assert swept[k] in swept;
      TokenMerge.Token(swept[k].lo, swept[k].hi, true, data[swept[k].lo..swept[k].hi]))
  }

  function FromLines(found: seq<TextTokens.Token>): (tokens: seq<TokenMerge.Token>)
    ensures |tokens| == |found| && forall k :: 0 <= k < |found| ==>
      tokens[k] == TokenMerge.Token(found[k].lo, found[k].hi, false, found[k].value)
  {
    seq(|found|, k requires 0 <= k < |found| =>
      TokenMerge.Token(found[k].lo, found[k].hi, false, found[k].value))
  }

  /** Its offsets hold just its value. */
  ghost predicate Spliced(data: Text, t: TokenMerge.Token) {
    t.lo < t.hi <= |data| && data[t.lo..t.hi] == t.value
  }

  ghost predicate InFile(data: Text, swept: seq<Span>) {
    forall x :: x in swept ==> x.lo < x.hi <= |data|
  }

  /** What the sweep chose and, of a file read line by line too, the line scanner's tokens with it. */
  ghost predicate AllTokens(data: Text, needles: Needles, matchAt: MatchAt, limit: nat, scan: Scan, both: bool,
      tokens: seq<TokenMerge.Token>)
    requires TextTokens.InLine(Finder(scan))
  {
    exists swept :: SweepOf(data, needles, matchAt, swept) && InFile(data, swept)
      && if both then FromBoth(data, limit, scan, swept, tokens) else tokens == FromSweep(data, swept)
  }

  ghost predicate FromBoth(data: Text, limit: nat, scan: Scan, swept: seq<Span>, tokens: seq<TokenMerge.Token>)
    requires TextTokens.InLine(Finder(scan)) && InFile(data, swept)
  {
    exists found :: TextTokens.FileMatches(data, limit, Finder(scan), found)
      && TokenMerge.KeepsJust(FromLines(found), FromSweep(data, swept), tokens)
  }

  lemma MergeInputs(data: Text, swept: seq<Span>, found: seq<TextTokens.Token>)
    requires InFile(data, swept) && TokenClaims.Ascending(swept) && Separate(found)
    ensures TokenMerge.Inputs(FromLines(found), FromSweep(data, swept))
  {
    var text, pattern := FromLines(found), FromSweep(data, swept);
    forall t | t in pattern ensures t.lo < t.hi && t.swept {
      var k :| 0 <= k < |pattern| && pattern[k] == t;
      assert swept[k] in swept;
    }
  }

  /** Every token of the file, in file order: none overlaps another, and each is just what its offsets hold. */
  method CacheFileTokens(ix: PatternSweep.LeadIndex, ghost table: seq<Regex>, data: Text, shaped: bool, limit: nat,
      scan: Scan, matchAt: MatchAt) returns (tokens: seq<TokenMerge.Token>)
    requires ix.Valid() && ix.needles == PatternSweep.NeedlesOf(table)
    requires Finds(data, matchAt) && limit > 0 && InLines(scan)
    ensures TextTokens.InLine(Finder(scan))
    ensures AllTokens(data, ix.needles, matchAt, limit, scan, shaped && |data| <= MAX_CONTENT_SCAN_SIZE, tokens)
    ensures TokenMerge.Sorted(tokens) && forall t :: t in tokens ==> Spliced(data, t)
  {
    FinderFits(scan);
    var swept := Matches(ix, table, data, matchAt);
    SweptInFile(data, ix.needles, matchAt, swept);
    var pattern := FromSweep(data, swept);
    SweepSpliced(data, swept);
    if !shaped || |data| > MAX_CONTENT_SCAN_SIZE {
      return pattern;
    }
    var found := TextTokens.TokensOf(data, limit, Finder(scan));
    FileMatchesApart(data, limit, scan, found);
    MergeInputs(data, swept, found);
    tokens := TokenMerge.MergeTokens(FromLines(found), pattern);
    assert FromBoth(data, limit, scan, swept, tokens);
    forall t | t in tokens ensures Spliced(data, t) {
      assert TokenMerge.Kept(FromLines(found), pattern, t);
      if t in FromLines(found) {
        var k :| 0 <= k < |found| && FromLines(found)[k] == t;
      }
    }
  }

  lemma SweptInFile(data: Text, needles: Needles, matchAt: MatchAt, swept: seq<Span>)
    requires Finds(data, matchAt) && forall x :: x in swept ==> Swept(data, needles, matchAt, x)
    ensures InFile(data, swept)
  {
  }

  lemma SweepSpliced(data: Text, swept: seq<Span>)
    requires InFile(data, swept) && TokenClaims.Ascending(swept)
    ensures TokenMerge.Sorted(FromSweep(data, swept)) && forall t :: t in FromSweep(data, swept) ==> Spliced(data, t)
  {
    forall t | t in FromSweep(data, swept) ensures Spliced(data, t) {
      var k :| 0 <= k < |swept| && FromSweep(data, swept)[k] == t;
      assert swept[k] in swept;
    }
  }
}
