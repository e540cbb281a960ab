/** The one durable file write: a temp file, an fsync, a rename. A crash may come after any effect, and
    then loses whatever was not yet synced. */
module AtomicFile {
  import opened Wrappers

  type Byte = bv8
  type Path = nat
  type Inum = nat

  datatype File = File(data: seq<Byte>, mode: nat)
  datatype Inode = Inode(file: File, synced: bool)

  /** `dirs` is the directory as it last was durable, and as each change since left it: the last is what
      a reader sees, and a crash may leave any one. */
  datatype Fs = Fs(inodes: map<Inum, Inode>, dirs: seq<map<Path, Inum>>)

  const TEMP_MODE: nat := 0x180

  ghost predicate Wf(fs: Fs) {
    fs.dirs != [] && forall i, p :: 0 <= i < |fs.dirs| && p in fs.dirs[i] ==> fs.dirs[i][p] in fs.inodes
  }

  function Now(fs: Fs): map<Path, Inum>
    requires fs.dirs != []
  {
    fs.dirs[|fs.dirs| - 1]
  }

  /** The file a reader sees. */
  function Visible(fs: Fs, p: Path): Option<File>
    requires Wf(fs)
  {
    if p in Now(fs) then Some(fs.inodes[Now(fs)[p]].file) else None
  }

  /** What `p` may read as after a crash that leaves directory `d`: an inode that was not synced may hold
      anything at all. */
  predicate MayHold(inodes: map<Inum, Inode>, d: map<Path, Inum>, p: Path, c: Option<File>) {
    if p !in d then c.None? else d[p] in inodes && c.Some? && (inodes[d[p]].synced ==> c.value == inodes[d[p]].file)
  }

  ghost predicate AfterCrash(fs: Fs, p: Path, c: Option<File>) {
    exists i :: 0 <= i < |fs.dirs| && MayHold(fs.inodes, fs.dirs[i], p, c)
  }

  /** Of a file synced under a durable name a crash leaves just what a reader saw, and of no file none. */
  lemma DurableSurvives(fs: Fs, p: Path)
    requires Wf(fs) && |fs.dirs| == 1 && (p in Now(fs) ==> fs.inodes[Now(fs)[p]].synced)
    ensures forall c :: AfterCrash(fs, p, c) <==> c == Visible(fs, p)
  {
    assert MayHold(fs.inodes, fs.dirs[0], p, Visible(fs, p));
  }

  /** Neither a reader nor a crash can tell `b` from `a` at `p`, but that `p` may hold `f` in full. */
  ghost predicate OldOrNew(a: Fs, b: Fs, p: Path, f: File)
    requires Wf(a)
  {
    && Wf(b) && (Visible(b, p) == Visible(a, p) || Visible(b, p) == Some(f))
    && forall c :: AfterCrash(b, p, c) ==> AfterCrash(a, p, c) || c == Some(f)
  }

  ghost predicate Untouched(a: Fs, b: Fs, p: Path)
    requires Wf(a)
  {
    && Wf(b) && Visible(b, p) == Visible(a, p)
    && forall c :: AfterCrash(b, p, c) ==> AfterCrash(a, p, c)
  }

  /** `b` is `a` but for inode `n`, which no name but `tmp` has, and for what the directory says of `tmp`. */
  ghost predicate OnlyTemp(a: Fs, b: Fs, tmp: Path, n: Inum)
    requires Wf(a)
  {
    && Wf(b) && n !in a.inodes && b.inodes.Keys == a.inodes.Keys + {n}
    && (forall m :: m in a.inodes ==> b.inodes[m] == a.inodes[m])
    && |a.dirs| <= |b.dirs|
    && (forall i :: 0 <= i < |b.dirs| ==> b.dirs[i] - {tmp} == a.dirs[if i < |a.dirs| then i else |a.dirs| - 1] - {tmp})
  }

  lemma OnlyTempUntouched(a: Fs, b: Fs, tmp: Path, n: Inum, p: Path)
    requires Wf(a) && OnlyTemp(a, b, tmp, n) && p != tmp
    ensures Untouched(a, b, p)
  {
    forall i | 0 <= i < |b.dirs| ensures var j := if i < |a.dirs| then i else |a.dirs| - 1;
      (p in b.dirs[i] <==> p in a.dirs[j]) && (p in b.dirs[i] ==> b.dirs[i][p] == a.dirs[j][p]) {
      var j := if i < |a.dirs| then i else |a.dirs| - 1;
      assert p in b.dirs[i] - {tmp} <==> p in b.dirs[i];
      assert p in a.dirs[j] - {tmp} <==> p in a.dirs[j];
      assert p in b.dirs[i] ==> (b.dirs[i] - {tmp})[p] == (a.dirs[j] - {tmp})[p];
    }
    forall c | AfterCrash(b, p, c) ensures AfterCrash(a, p, c) {
      var i :| 0 <= i < |b.dirs| && MayHold(b.inodes, b.dirs[i], p, c);
      var j := if i < |a.dirs| then i else |a.dirs| - 1;
      assert MayHold(a.inodes, a.dirs[j], p, c);
    }
  }

  /** From the `k`-th state seen on, only the temp file was touched. */
  ghost predicate SeenTemp(a: Fs, seen: seq<Fs>, k: nat, tmp: Path, n: Inum)
    requires Wf(a)
  {
    forall i :: k <= i < |seen| ==> OnlyTemp(a, seen[i], tmp, n)
  }

  ghost predicate SeenOldOrNew(a: Fs, seen: seq<Fs>, k: nat, p: Path, f: File)
    requires Wf(a)
  {
    forall i :: k <= i < |seen| ==> OldOrNew(a, seen[i], p, f)
  }

  lemma SeenSafe(a: Fs, seen: seq<Fs>, k: nat, tmp: Path, n: Inum, p: Path, f: File)
    requires Wf(a) && SeenTemp(a, seen, k, tmp, n) && p != tmp
    ensures SeenOldOrNew(a, seen, k, p, f)
  {
    forall i | k <= i < |seen| ensures OldOrNew(a, seen[i], p, f) {
      OnlyTempUntouched(a, seen[i], tmp, n, p);
    }
  }

  /** The rename: `p` now names the synced temp inode, and a crash may or may not have seen that. */
  lemma RenameOldOrNew(a: Fs, b: Fs, tmp: Path, n: Inum, p: Path, f: File)
    requires Wf(a) && OnlyTemp(a, b, tmp, n) && p != tmp && b.inodes[n] == Inode(f, true)
    ensures OldOrNew(a, b.(dirs := b.dirs + [(Now(b) - {tmp})[p := n]]), p, f)
  {
    OnlyTempUntouched(a, b, tmp, n, p);
    var d := b.(dirs := b.dirs + [(Now(b) - {tmp})[p := n]]);
    forall c | AfterCrash(d, p, c) ensures AfterCrash(a, p, c) || c == Some(f) {
      var i :| 0 <= i < |d.dirs| && MayHold(d.inodes, d.dirs[i], p, c);
      if i < |b.dirs| {
        assert d.dirs[i] == b.dirs[i] && MayHold(b.inodes, b.dirs[i], p, c);
        assert AfterCrash(b, p, c);
      }
    }
  }

  /** The directory fsync took: only the new file is left to be found. */
  lemma SyncedIsNew(a: Fs, b: Fs, p: Path, f: File)
    requires Wf(a) && Wf(b) && OldOrNew(a, b, p, f) && Visible(b, p) == Some(f) && b.inodes[Now(b)[p]].synced
    ensures var d := b.(dirs := [Now(b)]); OldOrNew(a, d, p, f) && forall c :: AfterCrash(d, p, c) ==> c == Some(f)
  {
  }

  class Directory {
    var fs: Fs
    /** Whether no call fails. */
    const steady: bool
    /** Every state a crash could have come in, in order. */
    ghost var seen: seq<Fs>
    /** The temp files whose removal was asked for, and how often a directory sync was. */
    ghost var removals: set<Path>
    ghost var syncs: nat

    ghost predicate Valid()
      reads this
    {
      Wf(fs)
    }

    method Try() returns (ok: bool)
      ensures steady ==> ok
    {
      ok := *;
      ok := ok || steady;
    }

    /** One effect on the file system. */
    method Become(next: Fs)
      modifies this`fs, this`seen
      ensures fs == next && seen == old(seen) + [next]
    {
      fs := next;
      seen := seen + [next];
    }

    /** A new file under a name nothing has. */
    method CreateTemp(tmp: Path, n: Inum)
      requires Valid() && tmp !in Now(fs) && n !in fs.inodes
      modifies this`fs, this`seen
      ensures OnlyTemp(old(fs), fs, tmp, n) && seen == old(seen) + [fs]
    {
      Become(Fs(fs.inodes[n := Inode(File([], TEMP_MODE), false)], fs.dirs + [Now(fs)[tmp := n]]));
    }

    method SetTemp(ghost before: Fs, ghost k: nat, tmp: Path, n: Inum, node: Inode)
      requires Wf(before) && OnlyTemp(before, fs, tmp, n) && k <= |seen| && SeenTemp(before, seen, k, tmp, n)
      modifies this`fs, this`seen
      ensures fs == old(fs).(inodes := old(fs).inodes[n := node]) && seen == old(seen) + [fs]
      ensures OnlyTemp(before, fs, tmp, n) && SeenTemp(before, seen, k, tmp, n)
    {
      Become(fs.(inodes := fs.inodes[n := node]));
    }

    /** Fills the temp file and syncs it, each effect in turn, stopping at the first that fails. */
    method FillTemp(ghost before: Fs, ghost k: nat, tmp: Path, n: Inum, f: File) returns (ok: bool)
      requires Wf(before) && OnlyTemp(before, fs, tmp, n) && k <= |seen| && SeenTemp(before, seen, k, tmp, n)
      modifies this`fs, this`seen
      ensures OnlyTemp(before, fs, tmp, n) && old(seen) <= seen && SeenTemp(before, seen, k, tmp, n)
      ensures fs.dirs == old(fs).dirs && (steady ==> ok)
      ensures ok ==> fs.inodes[n] == Inode(f, true)
    {
      ok := Try();
      if !ok {
        return;
      }
      SetTemp(before, k, tmp, n, Inode(File([], f.mode), false));
      ok := Try();
      if !ok {
        // A write that fails may have put down the first part.
        var part :| 0 <= part <= |f.data|;
        SetTemp(before, k, tmp, n, Inode(f.(data := f.data[..part]), false));
        return;
      }
      SetTemp(before, k, tmp, n, Inode(f, false));
      ok := Try();
      if ok {
        SetTemp(before, k, tmp, n, Inode(f, true));
        ok := Try(); // closing it
      }
    }

    /** Cleaning up after a failure, at best: it may fail too. */
    method RemoveTemp(ghost before: Fs, ghost k: nat, tmp: Path, n: Inum)
      requires Wf(before) && OnlyTemp(before, fs, tmp, n) && k <= |seen| && SeenTemp(before, seen, k, tmp, n)
      modifies this`fs, this`seen, this`removals
      ensures OnlyTemp(before, fs, tmp, n) && removals == old(removals) + {tmp}
      ensures old(seen) <= seen && SeenTemp(before, seen, k, tmp, n)
    {
      removals := removals + {tmp};
      var removed := Try();
      if removed {
        Become(fs.(dirs := fs.dirs + [Now(fs) - {tmp}]));
      }
    }

    /** Best effort: it may fail, and then the rename is only as durable as it happens to be. */
    method SyncDir() returns (durable: bool)
      requires Valid()
      modifies this`fs, this`seen, this`syncs
      ensures syncs == old(syncs) + 1 && (steady ==> durable)
      ensures fs == (if durable then old(fs).(dirs := [Now(old(fs))]) else old(fs))
      ensures seen == if durable then old(seen) + [fs] else old(seen)
    {
      syncs := syncs + 1;
      durable := Try();
      if durable {
        Become(fs.(dirs := [Now(fs)]));
      }
    }

    /** `tmp` and `n` are the fresh name and inode the temp file gets. */
    method WriteFileMode(dest: Path, f: File, tmp: Path, n: Inum) returns (ok: bool, durable: bool)
      requires Valid() && tmp != dest && tmp !in Now(fs) && n !in fs.inodes
      modifies this
      ensures Valid() && old(seen) <= seen
      // Whenever the crash comes, and whatever a reader sees, it is the old file or the whole new one.
      ensures SeenOldOrNew(old(fs), seen, |old(seen)|, dest, f) && OldOrNew(old(fs), fs, dest, f)
      // A failure reported is a file not replaced, in any crash as well, and a temp file asked to go.
      ensures !ok ==> Untouched(old(fs), fs, dest) && (tmp in Now(fs) ==> tmp in removals)
      ensures ok ==> Visible(fs, dest) == Some(f) && syncs == old(syncs) + 1
      ensures steady ==> ok && durable
      ensures ok && durable ==> forall c :: AfterCrash(fs, dest, c) ==> c == Some(f)
    {
      ghost var before := fs;
      durable := false;
      ok := Try();
      if !ok {
        return;
      }
      CreateTemp(tmp, n);
      ok := FillTemp(before, |old(seen)|, tmp, n, f);
      if ok {
        ok := Try(); // the rename
      }
      if !ok {
        RemoveTemp(before, |old(seen)|, tmp, n);
        SeenSafe(before, seen, |old(seen)|, tmp, n, dest, f);
        OnlyTempUntouched(before, fs, tmp, n, dest);
        return;
      }
      SeenSafe(before, seen, |old(seen)|, tmp, n, dest, f);
      RenameOldOrNew(before, fs, tmp, n, dest, f);
      Become(fs.(dirs := fs.dirs + [(Now(fs) - {tmp})[dest := n]]));
      SyncedIsNew(before, fs, dest, f);
      durable := SyncDir();
    }
  }
}
