/** The pool that reads many files at once under a budget of bytes, as a step system: one step is what a
    worker does between two waits, holding the mutex where the code does. */
module WorkerPool {
  type Finding = nat

  const BYTES_IN_FLIGHT := 0x1000_0000

  /** What each file is worth: its size, and what processing it finds. */
  datatype File = File(size: nat, findings: seq<Finding>)

  /** A worker between files, holding one it has yet to find room for (awake, or asleep until another
      worker is done), processing it, or done with it but for giving its bytes back. */
  datatype Worker =
    | Idle
    | Waiting(file: nat)
    | Asleep(file: nat)
    | Running(file: nat)
    | Done(file: nat)
    | Exited

  /** `slots` is what each processed file found, and `runs` how often each was processed. */
  datatype State = State(next: nat, inFlight: int, workers: seq<Worker>, slots: map<nat, seq<Finding>>,
      runs: multiset<nat>)

  function Init(n: nat): State {
    State(0, 0, seq(n, _ => Idle), map[], multiset{})
  }

  datatype Step = Take(w: nat) | Sleep(w: nat) | Start(w: nat) | Process(w: nat) | Release(w: nat) | Exit(w: nat)

  function Need(f: File): nat {
    if f.size < BYTES_IN_FLIGHT then f.size else BYTES_IN_FLIGHT
  }

  predicate HasFile(w: Worker) {
    !w.Idle? && !w.Exited?
  }

  /** It counts against the budget. */
  predicate Busy(w: Worker) {
    w.Running? || w.Done?
  }

  predicate NoRoom(files: seq<File>, s: State, i: nat)
    requires i < |files|
  {
    s.inFlight > 0 && s.inFlight + Need(files[i]) > BYTES_IN_FLIGHT
  }

  predicate Can(files: seq<File>, s: State, a: Step) {
    a.w < |s.workers| &&
    match s.workers[a.w]
    case Idle => if s.next < |files| then a.Take? else a.Exit?
    case Waiting(i) => i < |files| && if NoRoom(files, s, i) then a.Sleep? else a.Start?
    case Running(i) => i < |files| && a.Process?
    case Done(i) => i < |files| && a.Release?
    case _ => false
  }

  function Wake(w: Worker): Worker {
    if w.Asleep? then Waiting(w.file) else w
  }

  function Awake(ws: seq<Worker>): seq<Worker> {
    seq(|ws|, k requires 0 <= k < |ws| => Wake(ws[k]))
  }

  function Set(s: State, w: nat, to: Worker): State
    requires w < |s.workers|
  {
    s.(workers := s.workers[w := to])
  }

  function Do(files: seq<File>, s: State, a: Step): State
    requires Can(files, s, a)
  {
    match a
    case Take(w) => Set(s, w, Waiting(s.next)).(next := s.next + 1)
    case Sleep(w) => Set(s, w, Asleep(s.workers[w].file))
    case Start(w) => var i := s.workers[w].file; Set(s, w, Running(i)).(inFlight := s.inFlight + Need(files[i]))
    case Process(w) =>
      var i := s.workers[w].file;
      Set(s, w, Done(i)).(slots := s.slots[i := files[i].findings], runs := s.runs + multiset{i})
    case Release(w) =>
      var i := s.workers[w].file;
      s.(workers := Awake(s.workers[w := Idle]), inFlight := s.inFlight - Need(files[i]))
    case Exit(w) => Set(s, w, Exited)
  }

  function Weight(files: seq<File>, w: Worker): nat {
    if Busy(w) && w.file < |files| then Need(files[w.file]) else 0
  }

  /** The bytes the busy workers hold. */
  function Held(files: seq<File>, ws: seq<Worker>): nat {
    if ws == [] then 0 else Held(files, ws[..|ws| - 1]) + Weight(files, ws[|ws| - 1])
  }

  lemma {:induction false} HeldUpdate(files: seq<File>, ws: seq<Worker>, w: nat, to: Worker)
    requires w < |ws|
    ensures Held(files, ws[w := to]) == Held(files, ws) - Weight(files, ws[w]) + Weight(files, to)
  {
    var n := |ws| - 1;
    if w == n {
      assert ws[w := to][..n] == ws[..n];
    } else {
      assert ws[w := to][..n] == ws[..n][w := to];
      HeldUpdate(files, ws[..n], w, to);
    }
  }

  lemma {:induction false} HeldAwake(files: seq<File>, ws: seq<Worker>)
    ensures Held(files, Awake(ws)) == Held(files, ws)
  {
    if ws != [] {
      assert Awake(ws)[..|ws| - 1] == Awake(ws[..|ws| - 1]);
      HeldAwake(files, ws[..|ws| - 1]);
    }
  }

  lemma {:induction false} HeldIsSomeones(files: seq<File>, ws: seq<Worker>)
    requires Held(files, ws) > 0
    ensures exists w :: 0 <= w < |ws| && Busy(ws[w])
  {
    var n := |ws| - 1;
    if !Busy(ws[n]) {
      HeldIsSomeones(files, ws[..n]);
      var w :| 0 <= w < n && Busy(ws[..n][w]);
      assert Busy(ws[w]);
    }
  }

  ghost predicate Budget(files: seq<File>, s: State) {
    && s.inFlight == Held(files, s.workers) <= BYTES_IN_FLIGHT
    && (forall w :: 0 <= w < |s.workers| && s.workers[w].Asleep? ==> s.inFlight > 0)
  }

  /** Each file handed out is held by one worker or done with. */
  ghost predicate Holders(next: nat, ws: seq<Worker>, done: set<nat>) {
    && (forall w :: 0 <= w < |ws| && HasFile(ws[w]) ==> ws[w].file < next && (ws[w].file in done <==> ws[w].Done?))
    && (forall v, w :: 0 <= v < w < |ws| && HasFile(ws[v]) && HasFile(ws[w]) ==> ws[v].file != ws[w].file)
    && (forall i :: 0 <= i < next ==> i in done || exists w :: 0 <= w < |ws| && HasFile(ws[w]) && ws[w].file == i)
  }

  ghost predicate Exits(files: seq<File>, next: nat, ws: seq<Worker>) {
    next <= |files| && ((exists w :: 0 <= w < |ws| && ws[w].Exited?) ==> next == |files|)
  }

  /** And done with once. */
  ghost predicate Shared(files: seq<File>, s: State) {
    && Holders(s.next, s.workers, s.slots.Keys) && Exits(files, s.next, s.workers)
    && (forall i :: i in s.slots ==> i < s.next && s.slots[i] == files[i].findings)
    && (forall i :: s.runs[i] == if i in s.slots then 1 else 0)
  }

  lemma ReleaseBudget(files: seq<File>, s: State, w: nat)
    requires Budget(files, s) && Can(files, s, Release(w))
    ensures Budget(files, Do(files, s, Release(w)))
  {
    HeldUpdate(files, s.workers, w, Idle);
    HeldAwake(files, s.workers[w := Idle]);
  }

  lemma BudgetStep(files: seq<File>, s: State, a: Step)
    requires Budget(files, s) && Can(files, s, a)
    ensures Budget(files, Do(files, s, a))
  {
    hide Held, Awake;
    var t := Do(files, s, a);
    match a
    case Release(w) => ReleaseBudget(files, s, w);
    case _ => HeldUpdate(files, s.workers, a.w, t.workers[a.w]);
  }

  /** One worker moves on with the same file, or, having none, leaves. */
  lemma HoldersSame(next: nat, ws: seq<Worker>, done: set<nat>, w: nat, to: Worker)
    requires Holders(next, ws, done) && w < |ws| && HasFile(to) == HasFile(ws[w])
    requires HasFile(to) ==> to.file == ws[w].file && to.Done? == ws[w].Done?
    ensures Holders(next, ws[w := to], done)
  {
    var t := ws[w := to];
    forall i | 0 <= i < next && i !in done ensures exists v :: 0 <= v < |t| && HasFile(t[v]) && t[v].file == i {
      var v :| 0 <= v < |ws| && HasFile(ws[v]) && ws[v].file == i;
      assert HasFile(t[v]) && t[v].file == i;
    }
  }

  lemma HoldersTake(next: nat, ws: seq<Worker>, done: set<nat>, w: nat)
    requires Holders(next, ws, done) && w < |ws| && ws[w].Idle? && next !in done
    ensures Holders(next + 1, ws[w := Waiting(next)], done)
  {
    var t := ws[w := Waiting(next)];
    assert HasFile(t[w]) && t[w].file == next;
    forall i | 0 <= i < next && i !in done ensures exists v :: 0 <= v < |t| && HasFile(t[v]) && t[v].file == i {
      var v :| 0 <= v < |ws| && HasFile(ws[v]) && ws[v].file == i;
      assert HasFile(t[v]) && t[v].file == i;
    }
  }

  lemma HoldersProcess(next: nat, ws: seq<Worker>, done: set<nat>, w: nat)
    requires Holders(next, ws, done) && w < |ws| && ws[w].Running?
    ensures Holders(next, ws[w := Done(ws[w].file)], done + {ws[w].file})
  {
    var t := ws[w := Done(ws[w].file)];
    forall i | 0 <= i < next && i !in done && i != ws[w].file
      ensures exists v :: 0 <= v < |t| && HasFile(t[v]) && t[v].file == i {
      var v :| 0 <= v < |ws| && HasFile(ws[v]) && ws[v].file == i;
      assert HasFile(t[v]) && t[v].file == i;
    }
  }

  lemma HoldersIdle(next: nat, ws: seq<Worker>, done: set<nat>, w: nat)
    requires Holders(next, ws, done) && w < |ws| && ws[w].Done?
    ensures Holders(next, ws[w := Idle], done)
  {
    var t := ws[w := Idle];
    forall i | 0 <= i < next && i !in done ensures exists v :: 0 <= v < |t| && HasFile(t[v]) && t[v].file == i {
      var v :| 0 <= v < |ws| && HasFile(ws[v]) && ws[v].file == i;
      assert HasFile(t[v]) && t[v].file == i;
    }
  }

  lemma HoldersAwake(next: nat, ws: seq<Worker>, done: set<nat>)
    requires Holders(next, ws, done)
    ensures Holders(next, Awake(ws), done)
  {
    var t := Awake(ws);
    forall v | 0 <= v < |t| ensures HasFile(t[v]) == HasFile(ws[v])
        && (HasFile(ws[v]) ==> t[v].file == ws[v].file && t[v].Done? == ws[v].Done?) {
    }
    forall i | 0 <= i < next && i !in done ensures exists v :: 0 <= v < |t| && HasFile(t[v]) && t[v].file == i {
      var v :| 0 <= v < |ws| && HasFile(ws[v]) && ws[v].file == i;
      assert HasFile(t[v]) && t[v].file == i;
    }
  }

  lemma SharedTake(files: seq<File>, s: State, w: nat)
    requires Shared(files, s) && Can(files, s, Take(w))
    ensures Shared(files, Do(files, s, Take(w)))
  {
    HoldersTake(s.next, s.workers, s.slots.Keys, w);
  }

  lemma SharedProcess(files: seq<File>, s: State, w: nat)
    requires Shared(files, s) && Can(files, s, Process(w))
    ensures Shared(files, Do(files, s, Process(w)))
  {
    HoldersProcess(s.next, s.workers, s.slots.Keys, w);
    assert Do(files, s, Process(w)).slots.Keys == s.slots.Keys + {s.workers[w].file};
  }

  lemma SharedRelease(files: seq<File>, s: State, w: nat)
    requires Shared(files, s) && Can(files, s, Release(w))
    ensures Shared(files, Do(files, s, Release(w)))
  {
    HoldersIdle(s.next, s.workers, s.slots.Keys, w);
    HoldersAwake(s.next, s.workers[w := Idle], s.slots.Keys);
  }

  lemma SharedStep(files: seq<File>, s: State, a: Step)
    requires Shared(files, s) && Can(files, s, a)
    ensures Shared(files, Do(files, s, a))
  {
    match a
    case Take(w) => SharedTake(files, s, w);
    case Process(w) => SharedProcess(files, s, w);
    case Release(w) => SharedRelease(files, s, w);
    case _ => HoldersSame(s.next, s.workers, s.slots.Keys, a.w, Do(files, s, a).workers[a.w]);
  }

  ghost predicate Run(files: seq<File>, n: nat, steps: seq<Step>)
    decreases |steps|, 0
  {
    steps != [] ==>
      var front := steps[..|steps| - 1]; Run(files, n, front) && Can(files, After(files, n, front), steps[|steps| - 1])
  }

  ghost function After(files: seq<File>, n: nat, steps: seq<Step>): State
    requires Run(files, n, steps)
    decreases |steps|, 1
  {
    if steps == [] then Init(n) else Do(files, After(files, n, steps[..|steps| - 1]), steps[|steps| - 1])
  }

  lemma {:induction false} HeldNone(files: seq<File>, ws: seq<Worker>)
    requires forall w :: 0 <= w < |ws| ==> !Busy(ws[w])
    ensures Held(files, ws) == 0
  {
    if ws != [] {
      HeldNone(files, ws[..|ws| - 1]);
    }
  }

  /** The sizes of the files the busy workers hold, whole. */
  function BytesHeld(files: seq<File>, ws: seq<Worker>): nat {
    if ws == [] then 0 else
      var w := ws[|ws| - 1];
      BytesHeld(files, ws[..|ws| - 1]) + if Busy(w) && w.file < |files| then files[w.file].size else 0
  }

  ghost predicate HoldsAlone(files: seq<File>, ws: seq<Worker>, w: nat) {
    && w < |ws| && Busy(ws[w]) && ws[w].file < |files| && files[ws[w].file].size > BYTES_IN_FLIGHT
    && forall v :: 0 <= v < |ws| && v != w && Busy(ws[v]) && ws[v].file < |files| ==> files[ws[v].file].size == 0
  }

  lemma {:induction false} HeldIsBytes(files: seq<File>, ws: seq<Worker>)
    requires forall w :: 0 <= w < |ws| && Busy(ws[w]) && ws[w].file < |files| ==>
      files[ws[w].file].size <= BYTES_IN_FLIGHT
    ensures BytesHeld(files, ws) == Held(files, ws)
  {
    if ws != [] {
      HeldIsBytes(files, ws[..|ws| - 1]);
    }
  }

  lemma {:induction false} HeldAtLeast(files: seq<File>, ws: seq<Worker>, w: nat)
    requires w < |ws|
    ensures Held(files, ws) >= Weight(files, ws[w])
    ensures forall v :: 0 <= v < |ws| && v != w ==> Held(files, ws) >= Weight(files, ws[w]) + Weight(files, ws[v])
  {
    var n := |ws| - 1;
    if w == n {
      forall v | 0 <= v < n ensures Held(files, ws[..n]) >= Weight(files, ws[v]) {
        HeldAtLeast(files, ws[..n], v);
      }
    } else {
      HeldAtLeast(files, ws[..n], w);
    }
  }

  /** The files being read at once are within the budget, counted whole, unless one of them is over it on its
      own: then no other has a byte. */
  lemma FilesWithinBudget(files: seq<File>, s: State)
    requires Budget(files, s)
    ensures BytesHeld(files, s.workers) <= BYTES_IN_FLIGHT || exists w :: HoldsAlone(files, s.workers, w)
  {
    var ws := s.workers;
    if w :| 0 <= w < |ws| && Busy(ws[w]) && ws[w].file < |files| && files[ws[w].file].size > BYTES_IN_FLIGHT {
      HeldAtLeast(files, ws, w);
      assert HoldsAlone(files, ws, w);
    } else {
      HeldIsBytes(files, ws);
    }
  }

  /** A worker told to wait sleeps, and every sleeper looks again once bytes are given back. */
  lemma SleepersWake(files: seq<File>, s: State, w: nat)
    requires w < |s.workers|
    ensures Can(files, s, Sleep(w)) ==>
      Do(files, s, Sleep(w)) == s.(workers := s.workers[w := Asleep(s.workers[w].file)])
    ensures Can(files, s, Release(w)) ==>
      var after := Do(files, s, Release(w)).workers;
      |after| == |s.workers| && forall v :: 0 <= v < |after| ==>
        after[v] == if v == w then Idle else if s.workers[v].Asleep? then Waiting(s.workers[v].file) else s.workers[v]
  {
  }

  /** No worker is made to wait for room that is there, nor with no other at work. */
  lemma RoomIsUsed(files: seq<File>, s: State, w: nat)
    requires Budget(files, s) && w < |s.workers| && s.workers[w].Waiting? && s.workers[w].file < |files|
    ensures BytesHeld(files, s.workers) + files[s.workers[w].file].size <= BYTES_IN_FLIGHT ==> Can(files, s, Start(w))
    ensures (forall v :: 0 <= v < |s.workers| ==> !Busy(s.workers[v])) ==> Can(files, s, Start(w))
  {
    var ws := s.workers;
    if BytesHeld(files, ws) <= BYTES_IN_FLIGHT {
      forall v | 0 <= v < |ws| && Busy(ws[v]) && ws[v].file < |files|
        ensures files[ws[v].file].size <= BytesHeld(files, ws) {
        OneIsHeld(files, ws, v);
      }
      HeldIsBytes(files, ws);
    }
    if forall v :: 0 <= v < |ws| ==> !Busy(ws[v]) {
      HeldNone(files, ws);
    }
  }

  lemma {:induction false} OneIsHeld(files: seq<File>, ws: seq<Worker>, w: nat)
    requires w < |ws| && Busy(ws[w]) && ws[w].file < |files|
    ensures files[ws[w].file].size <= BytesHeld(files, ws)
  {
    if w < |ws| - 1 {
      OneIsHeld(files, ws[..|ws| - 1], w);
    }
  }

  /** On every schedule, the bytes in flight stay within the budget, and each file has one holder. */
  lemma {:induction false} RunKeeps(files: seq<File>, n: nat, steps: seq<Step>)
    requires Run(files, n, steps)
    ensures Budget(files, After(files, n, steps)) && Shared(files, After(files, n, steps))
    ensures |After(files, n, steps).workers| == n
    ensures var ws := After(files, n, steps).workers;
      BytesHeld(files, ws) <= BYTES_IN_FLIGHT || exists w :: HoldsAlone(files, ws, w)
  {
    if steps == [] {
      HeldNone(files, Init(n).workers);
    } else {
      var before := steps[..|steps| - 1];
      RunKeeps(files, n, before);
      BudgetStep(files, After(files, n, before), steps[|steps| - 1]);
      SharedStep(files, After(files, n, before), steps[|steps| - 1]);
    }
    FilesWithinBudget(files, After(files, n, steps));
  }

  /** It sleeps, or is about to. */
  predicate Stalled(files: seq<File>, s: State, w: Worker) {
    w.Asleep? || (w.Waiting? && w.file < |files| && NoRoom(files, s, w.file))
  }

  /** No worker sleeps, or is about to, unless another is at work; and until every worker has left, one can
      move without sleeping. No wake-up is lost. */
  lemma SomeoneMoves(files: seq<File>, n: nat, steps: seq<Step>)
    requires Run(files, n, steps)
    ensures var s := After(files, n, steps);
      && (forall w :: 0 <= w < |s.workers| && Stalled(files, s, s.workers[w]) ==>
            exists v :: 0 <= v < |s.workers| && v != w && Busy(s.workers[v]))
      && ((exists w :: 0 <= w < |s.workers| && !s.workers[w].Exited?) ==> exists a :: Can(files, s, a) && !a.Sleep?)
  {
    RunKeeps(files, n, steps);
    var s := After(files, n, steps);
    if s.inFlight > 0 {
      HeldIsSomeones(files, s.workers);
    }
    if w :| 0 <= w < |s.workers| && !s.workers[w].Exited? {
      BusyMoves(files, s);
      IdleMoves(files, s, w);
    }
  }

  lemma BusyMoves(files: seq<File>, s: State)
    requires Shared(files, s)
    ensures (exists v :: 0 <= v < |s.workers| && Busy(s.workers[v])) ==> exists a :: Can(files, s, a) && !a.Sleep?
  {
    if v :| 0 <= v < |s.workers| && Busy(s.workers[v]) {
      assert Can(files, s, if s.workers[v].Running? then Process(v) else Release(v));
    }
  }

  lemma IdleMoves(files: seq<File>, s: State, w: nat)
    requires Shared(files, s) && w < |s.workers|
    ensures s.workers[w].Idle? || (s.workers[w].Waiting? && !NoRoom(files, s, s.workers[w].file)) ==>
        exists a :: Can(files, s, a) && !a.Sleep?
  {
    if s.workers[w].Idle? {
      assert Can(files, s, if s.next < |files| then Take(w) else Exit(w));
    } else if s.workers[w].Waiting? && !NoRoom(files, s, s.workers[w].file) {
      assert Can(files, s, Start(w));
    }
  }

  function Joined(files: seq<File>, slots: map<nat, seq<Finding>>, n: nat): seq<Finding> {
    if n == 0 then [] else Joined(files, slots, n - 1) + if n - 1 in slots then slots[n - 1] else []
  }

  /** What one worker taking the files in turn would report. */
  function InTurn(files: seq<File>): seq<Finding> {
    if files == [] then [] else InTurn(files[..|files| - 1]) + files[|files| - 1].findings
  }

  lemma {:induction false} JoinedInTurn(files: seq<File>, slots: map<nat, seq<Finding>>, n: nat)
    requires n <= |files| && forall i :: 0 <= i < n ==> i in slots && slots[i] == files[i].findings
    ensures Joined(files, slots, n) == InTurn(files[..n])
  {
    if n > 0 {
      JoinedInTurn(files, slots, n - 1);
      assert files[..n][..n - 1] == files[..n - 1];
    }
  }

  /** Once every worker has left, every file was processed once, and the findings, slot by slot, are those
      of reading the files one at a time. */
  lemma PoolIsInTurn(files: seq<File>, n: nat, steps: seq<Step>)
    requires Run(files, n, steps) && n > 0 && forall w :: w in After(files, n, steps).workers ==> w.Exited?
    ensures var s := After(files, n, steps);
      && (forall i :: s.runs[i] == if 0 <= i < |files| then 1 else 0)
      && Joined(files, s.slots, |files|) == InTurn(files)
  {
    RunKeeps(files, n, steps);
    var s := After(files, n, steps);
    assert s.workers[0] in s.workers;
    forall w | 0 <= w < |s.workers| ensures s.workers[w].Exited? {
      assert s.workers[w] in s.workers;
    }
    forall i | 0 <= i < |files| ensures i in s.slots {
    }
    JoinedInTurn(files, s.slots, |files|);
    assert files[..|files|] == files;
  }

  function Rank(w: Worker): nat {
    match w
    case Exited => 0
    case Idle => 1
    case Done(_) => 2
    case Running(_) => 3
    case _ => 4
  }

  function Ranks(ws: seq<Worker>): nat {
    if ws == [] then 0 else Ranks(ws[..|ws| - 1]) + Rank(ws[|ws| - 1])
  }

  lemma {:induction false} RanksUpdate(ws: seq<Worker>, w: nat, to: Worker)
    requires w < |ws|
    ensures Ranks(ws[w := to]) == Ranks(ws) - Rank(ws[w]) + Rank(to)
  {
    var n := |ws| - 1;
    if w == n {
      assert ws[w := to][..n] == ws[..n];
    } else {
      assert ws[w := to][..n] == ws[..n][w := to];
      RanksUpdate(ws[..n], w, to);
    }
  }

  lemma {:induction false} RanksAwake(ws: seq<Worker>)
    ensures Ranks(Awake(ws)) == Ranks(ws)
  {
    if ws != [] {
      assert Awake(ws)[..|ws| - 1] == Awake(ws[..|ws| - 1]);
      RanksAwake(ws[..|ws| - 1]);
    }
  }

  /** How many moves, sleeping aside, there can still be. */
  function Left(files: seq<File>, s: State): int {
    4 * (|files| - s.next) + Ranks(s.workers)
  }

  /** Every move but falling asleep brings the end nearer. */
  lemma MovesRunOut(files: seq<File>, s: State, a: Step)
    requires Can(files, s, a) && s.next <= |files|
    ensures Left(files, Do(files, s, a)) == Left(files, s) - (if a.Sleep? then 0 else 1)
  {
    var t := Do(files, s, a);
    match a
    case Release(w) =>
      RanksUpdate(s.workers, w, Idle);
      RanksAwake(s.workers[w := Idle]);
    case _ => RanksUpdate(s.workers, a.w, t.workers[a.w]);
  }

  ghost function Moves(steps: seq<Step>): nat {
    if steps == [] then 0 else Moves(steps[..|steps| - 1]) + if steps[|steps| - 1].Sleep? then 0 else 1
  }

  lemma {:induction false} RanksIdle(n: nat)
    ensures Ranks(seq(n, _ => Idle)) == n
  {
    if n > 0 {
      assert seq(n, _ => Idle)[..n - 1] == seq(n - 1, _ => Idle);
      RanksIdle(n - 1);
    }
  }

  /** So no schedule goes on for ever: besides falling asleep, a run has four moves a file, and one a worker. */
  lemma {:induction false} RunsEnd(files: seq<File>, n: nat, steps: seq<Step>)
    requires Run(files, n, steps)
    ensures Moves(steps) == 4 * |files| + n - Left(files, After(files, n, steps)) <= 4 * |files| + n
  {
    RunKeeps(files, n, steps);
    if steps == [] {
      RanksIdle(n);
    } else {
      var before := steps[..|steps| - 1];
      RunsEnd(files, n, before);
      RunKeeps(files, n, before);
      MovesRunOut(files, After(files, n, before), steps[|steps| - 1]);
    }
  }
}
