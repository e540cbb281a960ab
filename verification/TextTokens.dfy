/** Matches found line by line, and their places in the whole file. */
module TextTokens {
  import opened Utf8
  import opened Wrappers
  import opened LineScan

  /** A stretch of one line's text. */
  datatype Claim = Claim(lo: nat, hi: nat)

  /** What the patterns claim of one line, in the order they claim it. */
  type Matcher = Text -> seq<Claim>

  ghost predicate InLine(find: Matcher) {
    forall t: Text, k :: 0 <= k < |find(t)| ==> find(t)[k].lo <= find(t)[k].hi <= |t|
  }

  datatype Token = Token(line: nat, lo: nat, hi: nat, value: Text)

  function Taken(text: Text, line: nat, claims: seq<Claim>): seq<Token>
    requires forall k :: 0 <= k < |claims| ==> claims[k].lo <= claims[k].hi <= |text|
  {
    seq(|claims|, k requires 0 <= k < |claims| => Token(line, claims[k].lo, claims[k].hi,
        text[claims[k].lo..claims[k].hi]))
  }

  /** Every line's tokens, lines numbered from one. */
  ghost function Found(texts: seq<Text>, find: Matcher): seq<Token>
    requires InLine(find)
  {
    if texts == [] then [] else
      var n := |texts| - 1;
      Found(texts[..n], find) + Taken(texts[n], n + 1, find(texts[n]))
  }

  ghost predicate ReadAt(data: Text, limit: nat, l: Line, text: Text) {
    l.lo <= l.hi <= |data| && Reads(data[l.lo..l.hi], limit, text)
  }

  /** What the scanner read, line by line. */
  ghost predicate ReadOff(data: Text, limit: nat, ls: seq<Line>, texts: seq<Text>) {
    |texts| == |ls| && forall k :: 0 <= k < |ls| ==> ReadAt(data, limit, ls[k], texts[k])
  }

  ghost predicate PlacedAt(data: Text, l: Line, t: Token) {
    t.lo <= t.hi && l.lo + t.hi <= |data| && data[l.lo + t.lo..l.lo + t.hi] == t.value
  }

  /** Each token is where its line says. */
  ghost predicate Placed(data: Text, ls: seq<Line>, tokens: seq<Token>) {
    forall i :: 0 <= i < |tokens| ==> 1 <= tokens[i].line <= |ls| && PlacedAt(data, ls[tokens[i].line - 1], tokens[i])
  }

  lemma InnerSlice(t: Text, a: nat, b: nat, i: nat, j: nat)
    requires a <= b <= |t| && i <= j <= b - a
    ensures t[a..b][i..j] == t[a + i..a + j]
  {
    forall k | 0 <= k < j - i ensures t[a..b][i..j][k] == t[a + i..a + j][k] {
      assert t[a..b][i + k] == t[a + i + k];
    }
  }

  lemma ClaimPlaced(data: Text, limit: nat, l: Line, text: Text, c: Claim, line: nat)
    requires ReadAt(data, limit, l, text) && c.lo <= c.hi <= |text|
    ensures PlacedAt(data, l, Token(line, c.lo, c.hi, text[c.lo..c.hi]))
  {
    hide Reads;
    var whole := data[l.lo..l.hi];
    ReadingIsPrefix(whole, limit, text);
    assert text == whole[0..|text|];
    InnerSlice(data, l.lo, l.hi, c.lo, c.hi);
    InnerSlice(whole, 0, |text|, c.lo, c.hi);
  }

  lemma TakenPlaced(data: Text, limit: nat, ls: seq<Line>, n: nat, text: Text, claims: seq<Claim>)
    requires n < |ls| && ReadAt(data, limit, ls[n], text)
    requires forall k :: 0 <= k < |claims| ==> claims[k].lo <= claims[k].hi <= |text|
    ensures Placed(data, ls, Taken(text, n + 1, claims))
  {
    var ts := Taken(text, n + 1, claims);
    forall k | 0 <= k < |ts| ensures PlacedAt(data, ls[n], ts[k]) {
      ClaimPlaced(data, limit, ls[n], text, claims[k], n + 1);
    }
  }

  lemma PlacedJoin(data: Text, before: seq<Line>, ls: seq<Line>, a: seq<Token>, b: seq<Token>)
    requires before <= ls && Placed(data, before, a) && Placed(data, ls, b)
    ensures Placed(data, ls, a + b)
  {
  }

  lemma {:induction false} FoundPlaced(data: Text, limit: nat, ls: seq<Line>, texts: seq<Text>, find: Matcher)
    requires InLine(find) && ReadOff(data, limit, ls, texts)
    ensures Placed(data, ls, Found(texts, find))
  {
    if texts != [] {
      var n := |texts| - 1;
      FoundPlaced(data, limit, ls[..n], texts[..n], find);
      TakenPlaced(data, limit, ls, n, texts[n], find(texts[n]));
      PlacedJoin(data, ls[..n], ls, Found(texts[..n], find), Taken(texts[n], n + 1, find(texts[n])));
    }
  }

  lemma FoundStep(texts: seq<Text>, text: Text, find: Matcher)
    requires InLine(find)
    ensures Found(texts + [text], find) == Found(texts, find) + Taken(text, |texts| + 1, find(text))
  {
    assert (texts + [text])[..|texts|] == texts;
  }

  lemma ReadOffStep(data: Text, limit: nat, before: seq<Line>, after: seq<Line>, texts: seq<Text>, text: Text)
    requires ReadOff(data, limit, before, texts) && OneMore(data, limit, before, after, text)
    ensures ReadOff(data, limit, after, texts + [text])
  {
  }

  /** `t` is a claim of the line it names, with what the line's reading has there. */
  ghost predicate ClaimOf(texts: seq<Text>, find: Matcher, t: Token) {
    && 1 <= t.line <= |texts| && Claim(t.lo, t.hi) in find(texts[t.line - 1])
    && t.lo <= t.hi <= |texts[t.line - 1]| && t.value == texts[t.line - 1][t.lo..t.hi]
  }

  /** No claim of any line is missing, and nothing else is there. */
  lemma {:induction false} FoundAreClaims(texts: seq<Text>, find: Matcher)
    requires InLine(find)
    ensures forall t :: t in Found(texts, find) <==> ClaimOf(texts, find, t)
  {
    if texts != [] {
      var n := |texts| - 1;
      FoundAreClaims(texts[..n], find);
      TakenAreClaims(texts[n], n + 1, find(texts[n]));
      forall t ensures ClaimOf(texts, find, t) <==>
          ClaimOf(texts[..n], find, t) || t in Taken(texts[n], n + 1, find(texts[n])) {
      }
    }
  }

  lemma TakenAreClaims(text: Text, line: nat, claims: seq<Claim>)
    requires forall k :: 0 <= k < |claims| ==> claims[k].lo <= claims[k].hi <= |text|
    ensures forall t :: t in Taken(text, line, claims) <==>
      t.line == line && Claim(t.lo, t.hi) in claims && t.lo <= t.hi <= |text| && t.value == text[t.lo..t.hi]
  {
    forall t: Token | t.line == line && Claim(t.lo, t.hi) in claims && t.lo <= t.hi <= |text|
        && t.value == text[t.lo..t.hi]
      ensures t in Taken(text, line, claims) {
      var k :| 0 <= k < |claims| && claims[k] == Claim(t.lo, t.hi);
      assert Taken(text, line, claims)[k] == t;
    }
  }

  /** The tokens are those of every line, each read off once. */
  ghost predicate LineMatches(data: Text, limit: nat, find: Matcher, tokens: seq<Token>)
    requires InLine(find)
  {
    exists texts :: ReadOff(data, limit, Lines(data, 0), texts) && tokens == Found(texts, find)
      && forall t :: t in tokens <==> ClaimOf(texts, find, t)
  }

  /** One token per line whatever the reads, and every line's matches. */
  method LineTokens(data: Text, limit: nat, find: Matcher) returns (tokens: seq<Token>)
    requires limit > 0 && InLine(find)
    ensures LineMatches(data, limit, find, tokens)
  {
    var scanner := new Scanner(data, limit);
    tokens := [];
    ghost var texts: seq<Text> := [];
    var lineNum := 0;
    while true
      invariant fresh(scanner) && fresh(scanner.splitter) && scanner.Valid() && scanner.data == data
          && scanner.splitter.limit == limit
      invariant ReadOff(data, limit, scanner.done, texts) && lineNum == |texts|
      invariant tokens == Found(texts, find)
      invariant |scanner.done| <= |Lines(data, 0)|
      decreases |Lines(data, 0)| - |scanner.done|
    {
      ghost var before := scanner.done;
      var text := scanner.Scan();
      if text.None? {
        FoundAreClaims(texts, find);
        return;
      }
      ReadOffStep(data, limit, before, scanner.done, texts, text.value);
      FoundStep(texts, text.value, find);
      lineNum := lineNum + 1;
      texts := texts + [text.value];
      tokens := tokens + Taken(text.value, lineNum, find(text.value));
    }
  }

  /** Where lines begin after each newline from `p` on. */
  function Starts(data: Text, p: nat): seq<nat>
    decreases |data| - p
  {
    if p >= |data| then [] else (if data[p] == NEWLINE then [p + 1] else []) + Starts(data, p + 1)
  }

  lemma StartsStep(data: Text, p: nat)
    requires p < |data|
    ensures Starts(data, p) == if data[p] == NEWLINE then [p + 1] + Starts(data, p + 1) else Starts(data, p + 1)
    ensures LineEnd(data, p) == if data[p] == NEWLINE then p else LineEnd(data, p + 1)
  {
    assert [] + Starts(data, p + 1) == Starts(data, p + 1);
  }

  lemma {:induction false} StartsOfLine(data: Text, p: nat)
    requires p <= |data|
    ensures var e := LineEnd(data, p); Starts(data, p) == if e < |data| then [e + 1] + Starts(data, e + 1) else []
    decreases |data| - p
  {
    if p < |data| {
      hide Starts, LineEnd;
      StartsStep(data, p);
      if data[p] != NEWLINE {
        StartsOfLine(data, p + 1);
      }
    }
  }

  /** Counting newlines finds the lines the scanner counts. */
  lemma {:induction false} StartsAreLines(data: Text, p: nat)
    requires p <= |data|
    ensures var starts := [p] + Starts(data, p);
      |Lines(data, p)| <= |starts| && forall k :: 0 <= k < |Lines(data, p)| ==> Lines(data, p)[k].lo == starts[k]
    decreases |data| - p
  {
    if p < |data| {
      var e := LineEnd(data, p);
      StartsOfLine(data, p);
      if e < |data| {
        StartsAreLines(data, e + 1);
        assert [p] + Starts(data, p) == [p] + ([e + 1] + Starts(data, e + 1));
      }
    }
  }

  method LineStarts(data: Text) returns (lineStart: seq<nat>)
    ensures lineStart == [0] + Starts(data, 0)
  {
    lineStart := [0];
    var i := 0;
    while i < |data|
      invariant 0 <= i <= |data| && lineStart + Starts(data, i) == [0] + Starts(data, 0)
    {
      if data[i] == NEWLINE {
        assert lineStart + ([i + 1] + Starts(data, i + 1)) == (lineStart + [i + 1]) + Starts(data, i + 1);
        lineStart := lineStart + [i + 1];
      }
      i := i + 1;
    }
  }

  /** `t` is line match `f`, at offsets into the file that hold just its value. */
  ghost predicate InFile(data: Text, ls: seq<Line>, f: Token, t: Token) {
    && 1 <= f.line == t.line <= |ls| && t.value == f.value
    && t.lo == ls[f.line - 1].lo + f.lo && t.hi == ls[f.line - 1].lo + f.hi
    && t.lo <= t.hi <= |data| && data[t.lo..t.hi] == t.value
  }

  /** The line matches, each at its place in the file. */
  ghost predicate FileMatches(data: Text, limit: nat, find: Matcher, tokens: seq<Token>)
    requires InLine(find)
  {
    exists found :: LineMatches(data, limit, find, found) && |tokens| == |found|
      && forall i :: 0 <= i < |tokens| ==> InFile(data, Lines(data, 0), found[i], tokens[i])
  }

  /** Every match of every line, at offsets into the file that hold just its value. */
  method TokensOf(data: Text, limit: nat, find: Matcher) returns (tokens: seq<Token>)
    requires limit > 0 && InLine(find)
    ensures FileMatches(data, limit, find, tokens)
    ensures forall i :: 0 <= i < |tokens| ==>
      tokens[i].lo <= tokens[i].hi <= |data| && data[tokens[i].lo..tokens[i].hi] == tokens[i].value
  {
    tokens := LineTokens(data, limit, find);
    ghost var texts :| ReadOff(data, limit, Lines(data, 0), texts) && tokens == Found(texts, find);
    FoundPlaced(data, limit, Lines(data, 0), texts, find);
    var lineStart := LineStarts(data);
    StartsAreLines(data, 0);
    tokens := ShiftAll(data, Lines(data, 0), lineStart, tokens);
  }

  method ShiftAll(ghost data: Text, ghost ls: seq<Line>, lineStart: seq<nat>,
      found: seq<Token>) returns (tokens: seq<Token>)
    requires Placed(data, ls, found)
    requires |ls| <= |lineStart| && forall k :: 0 <= k < |ls| ==> ls[k].lo == lineStart[k]
    ensures |tokens| == |found| && forall i :: 0 <= i < |tokens| ==> InFile(data, ls, found[i], tokens[i])
  {
    tokens := found;
    var i := 0;
    while i < |tokens|
      invariant 0 <= i <= |tokens| == |found|
      invariant forall j :: i <= j < |tokens| ==> tokens[j] == found[j]
      invariant forall j :: 0 <= j < i ==> InFile(data, ls, found[j], tokens[j])
    {
      var base := lineStart[tokens[i].line - 1];
      assert PlacedAt(data, ls[found[i].line - 1], found[i]);
      tokens := tokens[i := tokens[i].(lo := base + tokens[i].lo, hi := base + tokens[i].hi)];
      i := i + 1;
    }
  }
}
