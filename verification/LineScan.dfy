/** The line reader that cuts an over-long line short and goes on, under any reader that hands the file
    over piece by piece, and the offsets that lead a match back into the file. */
module LineScan {
  import opened Utf8
  import opened Wrappers

  const NEWLINE: Byte := 10
  const CR: Byte := 13

  /** Where the line that holds position `p` ends: at its newline, or with the file. */
  function LineEnd(data: Text, p: nat): (e: nat)
    requires p <= |data|
    ensures p <= e <= |data| && (e < |data| ==> data[e] == NEWLINE)
    ensures forall k :: p <= k < e ==> data[k] != NEWLINE
    decreases |data| - p
  {
    if p == |data| || data[p] == NEWLINE then p else LineEnd(data, p + 1)
  }

  datatype Line = Line(lo: nat, hi: nat)

  /** One after another they make up the file from `p` on, each up to its newline or the file's end. */
  ghost predicate CutAtNewlines(data: Text, p: nat, ls: seq<Line>) {
    && (ls == [] <==> p >= |data|) && (ls != [] ==> ls[0].lo == p && ls[|ls| - 1].hi + 1 >= |data|)
    && (forall k :: 0 <= k < |ls| ==>
          ls[k].lo <= ls[k].hi <= |data| && (ls[k].hi < |data| ==> data[ls[k].hi] == NEWLINE))
    && (forall k, i :: 0 <= k < |ls| && ls[k].lo <= i < ls[k].hi ==> data[i] != NEWLINE)
    && (forall k :: 0 < k < |ls| ==> ls[k].lo == ls[k - 1].hi + 1)
  }

  /** The lines of the file from `p` on. What follows the last newline is a line unless it is empty. */
  function Lines(data: Text, p: nat): (ls: seq<Line>)
    ensures forall k :: 0 <= k < |ls| ==> p <= ls[k].lo <= ls[k].hi <= |data|
    decreases |data| - p
  {
    if p >= |data| then [] else [Line(p, LineEnd(data, p))] + Lines(data, LineEnd(data, p) + 1)
  }

  lemma OneMoreCut(data: Text, p: nat, e: nat, rest: seq<Line>)
    requires p < |data| && p <= e <= |data| && (e < |data| ==> data[e] == NEWLINE)
    requires (forall k :: p <= k < e ==> data[k] != NEWLINE) && CutAtNewlines(data, e + 1, rest)
    ensures CutAtNewlines(data, p, [Line(p, e)] + rest)
  {
    var ls := [Line(p, e)] + rest;
    assert forall k :: 0 < k < |ls| ==> ls[k] == rest[k - 1];
    assert rest == [] || ls[|ls| - 1] == rest[|rest| - 1];
    forall k | 0 < k < |ls| ensures ls[k].lo == ls[k - 1].hi + 1 {
      if k > 1 {
        assert rest[k - 1].lo == rest[k - 2].hi + 1;
      }
    }
  }

  lemma {:induction false} LinesCutAtNewlines(data: Text, p: nat)
    ensures CutAtNewlines(data, p, Lines(data, p))
    decreases |data| - p
  {
    hide CutAtNewlines, LineEnd;
    if p < |data| {
      LinesCutAtNewlines(data, LineEnd(data, p) + 1);
      OneMoreCut(data, p, LineEnd(data, p), Lines(data, LineEnd(data, p) + 1));
    } else {
      NoneLeft(data, p);
    }
  }

  lemma NoneLeft(data: Text, p: nat)
    requires p >= |data|
    ensures CutAtNewlines(data, p, [])
  {
  }

  function DropCR(line: Text): Text {
    if line != [] && line[|line| - 1] == CR then line[..|line| - 1] else line
  }

  function Truncate(line: Text, limit: nat): Text {
    if |line| > limit then line[..limit] else line
  }

  /** `token` is `line` cut at the limit, or before that at the one carriage return that ends it. */
  predicate CutOff(line: Text, limit: nat, token: Text) {
    var n := if line != [] && line[|line| - 1] == CR then |line| - 1 else |line|;
    token == line[..if n < limit then n else limit]
  }

  lemma TruncateCutsOff(line: Text, limit: nat)
    ensures CutOff(line, limit, Truncate(DropCR(line), limit))
  {
  }

  /** What a line reads as. One of just the limit may keep its carriage return: it is cut before its newline is
      in view, or not, as the reads fall. */
  predicate Reads(line: Text, limit: nat, token: Text) {
    CutOff(line, limit, token) || (|line| == limit && token == line)
  }

  /** Away from that one case a line has one reading, its first bytes up to the limit or to a last CR. */
  lemma OneReading(line: Text, limit: nat, token: Text)
    requires Reads(line, limit, token) && !(|line| == limit > 0 && line[limit - 1] == CR)
    ensures |token| <= limit && token <= line
    ensures line != [] && line[|line| - 1] == CR ==> |token| == if |line| - 1 < limit then |line| - 1 else limit
    ensures line == [] || line[|line| - 1] != CR ==> |token| == if |line| < limit then |line| else limit
  {
  }

  /** Whichever it is, it is where the line begins. */
  lemma ReadingIsPrefix(line: Text, limit: nat, token: Text)
    requires Reads(line, limit, token)
    ensures token <= line && |token| <= limit
  {
  }

  /** What the split function does with `data`, `was` and `now` being whether it is discarding. */
  ghost predicate Splits(limit: nat, was: bool, data: Text, atEOF: bool, advance: nat, token: Option<Text>, now: bool) {
    var e := LineEnd(data, 0);
    if was then
      token.None? && now == (e == |data|) && advance == (if e < |data| then e + 1 else |data|)
    else if e < |data| || (atEOF && data != []) then
      token.Some? && CutOff(data[..e], limit, token.value) && !now && advance == (if e < |data| then e + 1 else |data|)
    else if !atEOF && |data| >= limit then
      token == Some(data[..limit]) && now && advance == limit
    else token.None? && !now && advance == 0
  }

  /** Where the lines still to come begin: past the one being discarded, if one is. */
  function Rest(data: Text, start: nat, discarding: bool): nat
    requires start <= |data|
  {
    if discarding then LineEnd(data, start) + 1 else start
  }

  /** The file's lines are those done and those from `rest` on. */
  ghost predicate Accounted(data: Text, done: seq<Line>, rest: nat) {
    Lines(data, 0) == done + Lines(data, rest)
  }

  lemma AccountedToken(data: Text, done: seq<Line>, start: nat, next: nat, now: bool)
    requires start < |data| && next <= |data| && Accounted(data, done, start)
    requires var e := LineEnd(data, start); if now then start <= next <= e else next == e + 1 || e == |data| == next
    ensures Accounted(data, done + [Line(start, LineEnd(data, start))], Rest(data, next, now))
  {
    hide LineEnd;
    var e := LineEnd(data, start);
    assert done + ([Line(start, e)] + Lines(data, e + 1)) == (done + [Line(start, e)]) + Lines(data, e + 1);
    if now {
      LineEndStays(data, start, next);
    }
  }

  lemma RestStays(data: Text, start: nat, next: nat, now: bool)
    requires start <= next <= |data|
    requires if now then next <= LineEnd(data, start) else next == LineEnd(data, start) + 1
    ensures Rest(data, next, now) == Rest(data, start, true)
  {
    if now {
      LineEndStays(data, start, next);
    }
  }

  lemma FrontOfSlice(data: Text, a: nat, b: nat, n: nat)
    requires a <= b <= |data| && a + n <= b
    ensures data[a..b][..n] == data[a..a + n]
  {
  }

  /** `token` reads the line that begins at `start`, and the scan goes on from `next`: past that line, or,
      when the rest of it is to be discarded, inside it. */
  ghost predicate TokenAt(data: Text, start: nat, read: nat, limit: nat, eof: bool, next: nat, token: Text, now: bool)
    requires start <= |data|
  {
    var e := LineEnd(data, start);
    && (limit > 0 ==> start < |data|) && next <= read
    && Reads(data[start..e], limit, token)
    && if now then !eof && start <= next <= e else next == e + 1 || e == |data| == next
  }

  /** A token is the reading of the line that begins at `start`. */
  lemma TokenReads(data: Text, start: nat, read: nat, limit: nat, eof: bool, advance: nat, token: Option<Text>,
      now: bool)
    requires start <= read <= |data| && (eof ==> read == |data|)
    requires Splits(limit, false, data[start..read], eof, advance, token, now) && token.Some?
    ensures TokenAt(data, start, read, limit, eof, start + advance, token.value, now)
  {
    hide LineEnd;
    var e := LineEnd(data, start);
    LineEndIn(data, start, read);
    if now {
      FrontOfSlice(data, start, read, limit);
      FrontOfSlice(data, start, e, limit);
    } else {
      FrontOfSlice(data, start, read, e - start);
    }
  }

  /** While discarding, the split function goes no further than the line's end. */
  lemma DiscardStays(data: Text, start: nat, read: nat, limit: nat, eof: bool, advance: nat, token: Option<Text>,
      now: bool)
    requires start <= read <= |data|
    requires Splits(limit, true, data[start..read], eof, advance, token, now)
    ensures start + advance <= read
    ensures if now then start + advance == read <= LineEnd(data, start) else start + advance == LineEnd(data, start) + 1
  {
    LineEndIn(data, start, read);
  }

  /** `token` is the reading of the one line `after` has and `before` has not. */
  ghost predicate OneMore(data: Text, limit: nat, before: seq<Line>, after: seq<Line>, token: Text) {
    && after != [] && after[..|after| - 1] == before
    && var l := after[|after| - 1]; l.lo <= l.hi <= |data| && Reads(data[l.lo..l.hi], limit, token)
  }

  lemma TokenTaken(data: Text, start: nat, read: nat, limit: nat, eof: bool, done: seq<Line>, next: nat, token: Text,
      now: bool)
    requires start <= read <= |data| && limit > 0 && Accounted(data, done, start)
    requires TokenAt(data, start, read, limit, eof, next, token, now)
    ensures next <= read && Accounted(data, done + [Line(start, LineEnd(data, start))], Rest(data, next, now))
    ensures OneMore(data, limit, done, done + [Line(start, LineEnd(data, start))], token)
  {
    AccountedToken(data, done, start, next, now);
  }

  /** No token: the rest of a line was skipped, or there is too little to tell. */
  ghost predicate NoneAt(data: Text, start: nat, read: nat, limit: nat, eof: bool, was: bool, next: nat, now: bool)
    requires start <= |data|
  {
    && start <= next <= read
    && (if was then (if now then next == read <= LineEnd(data, start) else next == LineEnd(data, start) + 1)
        else !now && next == start && if eof then start == read else read - start < limit)
  }

  lemma NoneTaken(data: Text, start: nat, read: nat, limit: nat, eof: bool, was: bool, advance: nat, now: bool)
    requires start <= read <= |data|
    requires Splits(limit, was, data[start..read], eof, advance, None, now)
    ensures NoneAt(data, start, read, limit, eof, was, start + advance, now)
  {
    if was {
      DiscardStays(data, start, read, limit, eof, advance, None, now);
    }
  }

  /** The split function: how much of `data` it is done with, and a token or none. */
  class Splitter {
    const limit: nat
    var discarding: bool

    constructor (limit: nat)
      ensures this.limit == limit && !discarding
    {
      this.limit, discarding := limit, false;
    }

    method Split(data: Text, atEOF: bool) returns (advance: nat, token: Option<Text>)
      modifies this
      ensures Splits(limit, old(discarding), data, atEOF, advance, token, discarding)
    {
      var i := 0;
      while i < |data| && data[i] != NEWLINE
        invariant 0 <= i <= |data| && LineEnd(data, 0) == LineEnd(data, i)
      {
        i := i + 1;
      }
      if discarding {
        if i < |data| {
          discarding := false;
          return i + 1, None;
        }
        return |data|, None;
      }
      if i < |data| {
        TruncateCutsOff(data[..i], limit);
        return i + 1, Some(Truncate(DropCR(data[..i]), limit));
      }
      if atEOF {
        if data == [] {
          return 0, None;
        }
        assert data[..i] == data;
        TruncateCutsOff(data, limit);
        return |data|, Some(Truncate(DropCR(data), limit));
      }
      if |data| >= limit {
        discarding := true;
        return limit, Some(data[..limit]);
      }
      return 0, None;
    }
  }

  lemma LineEndIn(data: Text, p: nat, r: nat)
    requires p <= r <= |data|
    ensures LineEnd(data[p..r], 0) + p == if LineEnd(data, p) <= r then LineEnd(data, p) else r
  {
    assert forall k :: 0 <= k < r - p ==> data[p..r][k] == data[p + k];
  }

  lemma LineEndStays(data: Text, p: nat, q: nat)
    requires p <= |data| && p <= q <= LineEnd(data, p)
    ensures LineEnd(data, q) == LineEnd(data, p)
  {
  }

  /** bufio's scanner over a file read piece by piece: the end is told only by a read that finds nothing. */
  class Scanner {
    const data: Text
    const splitter: Splitter
    /** Held: `data[start..read]`. */
    var start: nat
    var read: nat
    var eof: bool
    var tooLong: bool
    /** The lines whose token is out. */
    ghost var done: seq<Line>

    ghost predicate Valid()
      reads this, splitter
    {
      && start <= read <= |data| && splitter.limit > 0 && !tooLong
      && read - start <= 2 * splitter.limit
      && (eof ==> read == |data|)
      && (splitter.discarding ==> !eof || start == read)
      && Accounted(data, done, Rest(data, start, splitter.discarding))
    }

    constructor (data: Text, limit: nat)
      requires limit > 0
      ensures Valid() && fresh(splitter) && this.data == data && splitter.limit == limit && done == []
    {
      this.data := data;
      splitter := new Splitter(limit);
      start, read, eof, tooLong, done := 0, 0, false, false, [];
    }

    /** Reads on, into a buffer of at most twice the limit. As many bytes come as the reader likes. A full
        buffer would end the scan there. */
    method ReadMore() returns (ok: bool)
      requires Valid() && !eof && (splitter.discarding ==> start == read)
      modifies this`read, this`eof, this`tooLong
      ensures ok <==> read - start < 2 * splitter.limit || read != old(read)
      ensures ok ==> Valid() && read >= old(read) && (eof || read > old(read))
    {
      if read - start >= 2 * splitter.limit {
        tooLong := true;
        return false;
      }
      if read == |data| {
        eof := true;
      } else {
        var n :| 0 < n <= |data| - read && read + n - start <= 2 * splitter.limit;
        read := read + n;
      }
      return true;
    }

    /** The next token, until there is none. The buffer never fills: no line is too long. */
    method Scan() returns (token: Option<Text>)
      requires Valid()
      modifies this, splitter
      ensures Valid()
      ensures token.None? ==> done == old(done) && done == Lines(data, 0)
      ensures token.Some? ==> OneMore(data, splitter.limit, old(done), done, token.value)
    {
      while true
        invariant Valid() && done == old(done)
        decreases |data| - read, !eof, |data| - start
      {
        if read > start || eof {
          token := TakeToken();
          if token.Some? {
            return;
          }
        }
        if eof {
          return None;
        }
        var ok := ReadMore();
        assert ok;
      }
    }

    /** One call of the split function. */
    method TakeToken() returns (token: Option<Text>)
      requires Valid() && (read > start || eof)
      modifies this`start, this`done, splitter
      ensures Valid() && start >= old(start)
      ensures token.None? ==>
        done == old(done) && read - start < 2 * splitter.limit && (splitter.discarding ==> start == read)
      ensures token.None? && eof ==> done == Lines(data, 0)
      ensures token.Some? ==> OneMore(data, splitter.limit, old(done), done, token.value)
    {
      ghost var was := splitter.discarding;
      var next: nat;
      next, token := SplitHere();
      if token.Some? {
        TokenTaken(data, start, read, splitter.limit, eof, done, next, token.value, splitter.discarding);
        done := done + [Line(start, LineEnd(data, start))];
      } else if was {
        RestStays(data, start, next, splitter.discarding);
      }
      start := next;
    }

    method SplitHere() returns (next: nat, token: Option<Text>)
      requires Valid()
      modifies splitter
      ensures token.Some? ==>
        && !old(splitter.discarding)
        && TokenAt(data, start, read, splitter.limit, eof, next, token.value, splitter.discarding)
      ensures token.None? ==> NoneAt(data, start, read, splitter.limit, eof, old(splitter.discarding), next,
          splitter.discarding)
    {
      var advance: nat;
      ghost var was := splitter.discarding;
      advance, token := splitter.Split(data[start..read], eof);
      next := start + advance;
      if token.Some? {
        TokenReads(data, start, read, splitter.limit, eof, advance, token, splitter.discarding);
      } else {
        NoneTaken(data, start, read, splitter.limit, eof, was, advance, splitter.discarding);
      }
    }
  }

  /** Both readings of a line of just the limit that ends in CR do come up: its newline is in view, or the
      read stopped short of it. */
  lemma LimitReadsBothWays(line: Text)
    requires line != [] && line[|line| - 1] == CR && NEWLINE !in line
    ensures Splits(|line|, false, line, false, |line|, Some(line), true)
    ensures Splits(|line|, false, line + [NEWLINE], false, |line| + 1, Some(line[..|line| - 1]), false)
  {
    var whole := line + [NEWLINE];
    assert line[..|line|] == line == whole[..|line|];
    forall k | 0 <= k < |line| ensures whole[k] != NEWLINE && line[k] != NEWLINE {
      assert whole[k] == line[k] && line[k] in line;
    }
    assert whole[|line|] == NEWLINE;
  }
}
