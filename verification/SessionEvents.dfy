/** What the server remembers of a session: the ring of recent events, the uses still being collapsed,
    and the hand-off of every recorded event to the durable file. */
module SessionEvents {
  import opened Wrappers

  type Time = int
  type Label = nat

  const MAX_SESSION_EVENTS := 200
  const MAX_USE_LABELS := 8
  const SECOND := 1_000_000_000

  /** Uses collapse by operation and raw command line; the line itself is never part of an event. */
  datatype Key = Key(op: nat, caller: nat)

  /** `source` is the aggregate a collapsed event came from. `at` is in whole seconds. */
  datatype Event =
    | Uses(source: Key, at: Time, count: nat, labels: seq<Label>)
    | Lock(at: Time)
    | Note(what: nat, at: Time)

  datatype Aggregate = Aggregate(start: Time, event: Event)

  /** `ring` is the end of `all`, as much of it as there is room for. */
  ghost predicate Newest(ring: seq<Event>, all: seq<Event>) {
    && |ring| == (if |all| < MAX_SESSION_EVENTS then |all| else MAX_SESSION_EVENTS)
    && ring == all[|all| - |ring|..]
  }

  lemma NewestOf(all: seq<Event>)
    ensures Newest(if |all| > MAX_SESSION_EVENTS then all[|all| - MAX_SESSION_EVENTS..] else all, all)
  {
  }

  lemma NothingYet()
    ensures Newest([], []) && Conserved(map[], map[], []) && Delivered([], [], [], [], []) && Collapsing(map[])
    ensures AllLabelled([])
  {
  }

  lemma NewestMore(ring: seq<Event>, all: seq<Event>, e: Event)
    requires Newest(ring, all)
    ensures Newest(if |ring| == MAX_SESSION_EVENTS then (ring + [e])[1..] else ring + [e], all + [e])
  {
    assert (all + [e])[|all| - |ring|..] == ring + [e];
    assert |ring| > 0 ==> (all + [e])[|all| + 1 - |ring|..] == (ring + [e])[1..];
  }

  /** Read back from its end, it is everything recorded, newest first. */
  lemma NewestFirst(ring: seq<Event>, all: seq<Event>, out: seq<Event>)
    requires Newest(ring, all) && |out| == |ring| && forall i :: 0 <= i < |out| ==> out[i] == ring[|ring| - 1 - i]
    ensures forall i :: 0 <= i < |out| ==> out[i] == all[|all| - 1 - i]
  {
  }

  /** How many uses of `k` the events of `s` stand for. */
  function Flushed(s: seq<Event>, k: Key): nat {
    if s == [] then 0 else
      Flushed(s[..|s| - 1], k) + (var e := s[|s| - 1]; if e.Uses? && e.source == k then e.count else 0)
  }

  /** The same for events in no order. */
  lemma {:induction false} FlushedSplit(a: seq<Event>, b: seq<Event>, k: Key)
    ensures Flushed(a + b, k) == Flushed(a, k) + Flushed(b, k)
  {
    if b == [] {
      assert a + b == a;
    } else {
      assert (a + b)[..|a + b| - 1] == a + b[..|b| - 1];
      FlushedSplit(a, b[..|b| - 1], k);
    }
  }

  lemma FlushedInsert(s: seq<Event>, i: nat, e: Event, k: Key)
    requires i <= |s|
    ensures Flushed(s[..i] + [e] + s[i..], k) == Flushed(s, k) + Flushed([e], k)
  {
    hide Flushed;
    FlushedSplit(s[..i] + [e], s[i..], k);
    FlushedSplit(s[..i], [e], k);
    FlushedSplit(s[..i], s[i..], k);
    assert s[..i] + s[i..] == s;
  }

  predicate Distinct(labels: seq<Label>) {
    forall i, j :: 0 <= i < j < |labels| ==> labels[i] != labels[j]
  }

  predicate WellLabelled(e: Event) {
    e.Uses? ==> Distinct(e.labels) && |e.labels| <= MAX_USE_LABELS
  }

  predicate Ordered(s: seq<Event>) {
    forall i, j :: 0 <= i < j < |s| ==> s[i].at <= s[j].at
  }

  /** The aggregates a flush takes, and those it leaves. */
  predicate Due(a: Aggregate, all: bool, now: Time, window: int) {
    all || now - a.start >= window
  }

  function DueEvents(pending: map<Key, Aggregate>, all: bool, now: Time, window: int): set<Event> {
    set k | k in pending && Due(pending[k], all, now, window) :: pending[k].event
  }

  function NotDue(pending: map<Key, Aggregate>, all: bool, now: Time, window: int): map<Key, Aggregate> {
    map k | k in pending && !Due(pending[k], all, now, window) :: pending[k]
  }

  /** An aggregate goes once its window is over, or when all of them do; the rest stay as they are. */
  lemma DueIsOver(pending: map<Key, Aggregate>, all: bool, now: Time, window: int)
    ensures forall k :: k in NotDue(pending, all, now, window) <==>
      k in pending && !all && now - pending[k].start < window
    ensures forall k :: k in NotDue(pending, all, now, window) ==> NotDue(pending, all, now, window)[k] == pending[k]
    ensures forall e :: e in DueEvents(pending, all, now, window) <==>
      exists k :: k in pending && (all || window <= now - pending[k].start) && pending[k].event == e
  {
  }

  function SetOf(s: seq<Event>): set<Event> {
    set e | e in s
  }

  function CountOf(pending: map<Key, Aggregate>, k: Key): nat {
    if k in pending && pending[k].event.Uses? then pending[k].event.count else 0
  }

  ghost predicate Collapsing(pending: map<Key, Aggregate>) {
    forall k :: k in pending ==>
      var e := pending[k].event;
      e.Uses? && e.source == k && WellLabelled(e) && e.count > 0 && e.at == pending[k].start / SECOND
  }

  function Total(used: map<Key, nat>, k: Key): nat {
    if k in used then used[k] else 0
  }

  lemma InsertKeeps(s: seq<Event>, i: nat, e: Event)
    requires i <= |s|
    ensures multiset(s[..i] + [e] + s[i..]) == multiset(s) + multiset{e}
    ensures forall k :: Flushed(s[..i] + [e] + s[i..], k) == Flushed(s, k) + Flushed([e], k)
  {
    assert s == s[..i] + s[i..];
    forall k ensures Flushed(s[..i] + [e] + s[i..], k) == Flushed(s, k) + Flushed([e], k) {
      FlushedInsert(s, i, e, k);
    }
  }

  /** No use is lost or counted twice on its way from pending to the ring. */
  ghost predicate Conserved(used: map<Key, nat>, pending: map<Key, Aggregate>, appended: seq<Event>) {
    forall k :: Total(used, k) == CountOf(pending, k) + Flushed(appended, k)
  }

  /** What the threads have in hand, all told. */
  ghost function Held(hands: seq<seq<Event>>): multiset<Event> {
    if hands == [] then multiset{} else Held(hands[..|hands| - 1]) + multiset(hands[|hands| - 1])
  }

  lemma HeldMore(hands: seq<seq<Event>>, out: seq<Event>)
    ensures Held(hands + [out]) == Held(hands) + multiset(out)
  {
    assert (hands + [out])[..|hands|] == hands;
  }

  /** One thread hands on the first of what it has. */
  lemma {:induction false} HeldLess(hands: seq<seq<Event>>, th: nat)
    requires th < |hands| && hands[th] != []
    ensures Held(hands) == Held(hands[th := hands[th][1..]]) + multiset{hands[th][0]}
  {
    var n := |hands| - 1;
    var rest := hands[th][1..];
    assert hands[th] == [hands[th][0]] + rest;
    if th == n {
      assert hands[th := rest][..n] == hands[..n];
    } else {
      HeldLess(hands[..n], th);
      assert hands[th := rest][..n] == hands[..n][th := rest];
    }
  }

  lemma {:induction false} NoneHeld(hands: seq<seq<Event>>)
    requires forall th :: 0 <= th < |hands| ==> hands[th] == []
    ensures Held(hands) == multiset{}
  {
    if hands != [] {
      NoneHeld(hands[..|hands| - 1]);
    }
  }

  /** Every recorded event is in the file, parked, in one thread's hands, or of the section under way, once. */
  ghost predicate Delivered(appended: seq<Event>, sink: seq<Event>, parked: seq<Event>, hands: seq<seq<Event>>,
      here: seq<Event>) {
    multiset(appended) == multiset(sink) + multiset(parked) + Held(hands) + multiset(here)
  }

  ghost predicate AllLabelled(s: seq<Event>) {
    forall e :: e in s ==> WellLabelled(e)
  }

  lemma ConservedFlush(used: map<Key, nat>, was: map<Key, Aggregate>, pending: map<Key, Aggregate>, h: seq<Event>,
      out: seq<Event>)
    requires Conserved(used, was, h) && forall k :: CountOf(was, k) == CountOf(pending, k) + Flushed(out, k)
    ensures Conserved(used, pending, h + out)
  {
    forall k ensures Total(used, k) == CountOf(pending, k) + Flushed(h + out, k) {
      FlushedSplit(h, out, k);
    }
  }

  /** One more use of what `e` collapses; a name it has already, or has no room for, is not added. */
  function OneMore(e: Event, secret: Option<Label>): (r: Event)
    requires e.Uses? && WellLabelled(e)
    ensures r.Uses? && r.source == e.source && r.at == e.at && r.count == e.count + 1 && WellLabelled(r)
    ensures e.labels <= r.labels && forall l :: l in r.labels ==> l in e.labels || secret == Some(l)
    ensures secret.Some? && secret.value !in r.labels ==> |r.labels| == MAX_USE_LABELS
  {
    var counted := e.(count := e.count + 1);
    if secret.Some? && |e.labels| < MAX_USE_LABELS && secret.value !in e.labels then
      counted.(labels := e.labels + [secret.value])
    else counted
  }

  lemma ConservedUse(used: map<Key, nat>, pending: map<Key, Aggregate>, appended: seq<Event>, key: Key, agg: Aggregate)
    requires Conserved(used, pending, appended) && agg.event.Uses? && agg.event.count == CountOf(pending, key) + 1
    ensures Conserved(used[key := Total(used, key) + 1], pending[key := agg], appended)
  {
  }

  /** A flush of all leaves nothing. */
  lemma AllTaken(was: map<Key, Aggregate>, pending: map<Key, Aggregate>, now: Time, window: int)
    requires pending == NotDue(was, true, now, window)
    ensures pending == map[]
  {
  }

  /** Recorded, and in the hands of the section under way. */
  lemma DeliveredMore(h: seq<Event>, out: seq<Event>, sink: seq<Event>, parked: seq<Event>, hands: seq<seq<Event>>,
      here: seq<Event>)
    requires Delivered(h, sink, parked, hands, here)
    ensures Delivered(h + out, sink, parked, hands, here + out)
  {
  }

  /** The section over, what it recorded is in its thread's hands, or parked. */
  lemma DeliveredLeave(h: seq<Event>, sink: seq<Event>, parked: seq<Event>, hands: seq<seq<Event>>, here: seq<Event>)
    requires Delivered(h, sink, parked, hands, here)
    ensures Delivered(h, sink, parked, hands + [here], [])
    ensures Delivered(h, sink, parked + here, hands, [])
  {
    HeldMore(hands, here);
  }

  lemma LabelledMore(h: seq<Event>, out: seq<Event>)
    requires AllLabelled(h) && AllLabelled(out)
    ensures AllLabelled(h + out)
  {
  }

  lemma CollapsingUse(pending: map<Key, Aggregate>, key: Key, agg: Aggregate)
    requires Collapsing(pending) && agg.event.Uses? && agg.event.source == key && WellLabelled(agg.event)
    requires agg.event.count > 0 && agg.event.at == agg.start / SECOND
    ensures Collapsing(pending[key := agg])
  {
  }

  /** Puts `e` where its time says, after what is as old. */
  method InsertByTime(s: seq<Event>, e: Event) returns (out: seq<Event>)
    requires Ordered(s)
    ensures Ordered(out) && multiset(out) == multiset(s) + multiset{e}
    ensures forall k :: Flushed(out, k) == Flushed(s, k) + Flushed([e], k)
  {
    var i := |s|;
    while i > 0 && s[i - 1].at > e.at
      invariant 0 <= i <= |s| && forall j :: i <= j < |s| ==> s[j].at > e.at
    {
      i := i - 1;
    }
    out := s[..i] + [e] + s[i..];
    InsertKeeps(s, i, e);
  }

  class EventLog {
    const window: int
    var events: seq<Event>
    var pending: map<Key, Aggregate>
    /** A lazily collected session's events, waiting for someone to hand them on. */
    var parked: seq<Event>
    /** What the durable file has got, in order, and what each thread took out of the mutex and has yet to
        hand on to it. */
    var sink: seq<Event>
    var hands: seq<seq<Event>>
    /** The events restored, every event recorded since, those the section under way recorded, and every use. */
    ghost var seed: seq<Event>
    ghost var appended: seq<Event>
    ghost var here: seq<Event>
    ghost var used: map<Key, nat>

    ghost predicate Valid()
      reads this
    {
      && Newest(events, seed + appended)
      && Conserved(used, pending, appended) && Delivered(appended, sink, parked, hands, here)
      && Collapsing(pending) && AllLabelled(appended)
    }

    /** Nobody holds the mutex. */
    ghost predicate Between()
      reads this
    {
      Valid() && here == []
    }

    constructor (window: int)
      ensures Between() && appended == [] && hands == [] && this.window == window
    {
      this.window, events, pending, parked := window, [], map[], [];
      seed, appended, sink, hands, here, used := [], [], [], [], [], map[];
      new;
      hide Newest, Conserved, Delivered, Collapsing, AllLabelled;
      NothingYet();
      assert seed + appended == [];
    }

    /** The newest events of the durable file, before anything is recorded. */
    method SeedHistory(restored: seq<Event>)
      requires Between() && appended == []
      modifies this`events, this`seed
      ensures Between() && seed == restored && Newest(events, restored)
    {
      hide Newest;
      NewestOf(restored);
      events := if |restored| > MAX_SESSION_EVENTS then restored[|restored| - MAX_SESSION_EVENTS..] else restored;
      seed := restored;
      assert seed + appended == seed;
    }

    /** Appends to the ring, dropping the oldest past the cap. */
    method RecordEvent(e: Event)
      requires Valid() && WellLabelled(e) && !e.Uses?
      modifies this`events, this`appended, this`here
      ensures Valid() && appended == old(appended) + [e] && here == old(here) + [e]
      ensures events != [] && events[|events| - 1] == e
    {
      hide Conserved, Delivered, Collapsing, Newest;
      ghost var h := appended;
      Append(e);
      DeliveredMore(h, [e], sink, parked, hands, here);
      here := here + [e];
      NoUse(e);
      ConservedFlush(used, pending, pending, h, [e]);
    }

    /** The mutex is let go, and the thread goes off with what its section recorded. */
    method Leave(out: seq<Event>)
      requires Valid() && here == out
      modifies this`hands, this`here
      ensures Between() && hands == old(hands) + [out]
    {
      hide Conserved, Delivered, Collapsing, Newest, AllLabelled;
      DeliveredLeave(appended, sink, parked, hands, here);
      hands, here := hands + [out], [];
    }

    /** A section that records one event, for its caller to hand on. */
    method Note(e: Event)
      requires Between() && WellLabelled(e) && !e.Uses?
      modifies this`events, this`appended, this`here, this`hands
      ensures Between() && appended == old(appended) + [e] && hands == old(hands) + [[e]]
    {
      RecordEvent(e);
      Leave([e]);
    }

    method Append(e: Event)
      requires Newest(events, seed + appended)
      modifies this`events, this`appended
      ensures Newest(events, seed + appended) && appended == old(appended) + [e]
      ensures events != [] && events[|events| - 1] == e
    {
      assert seed + (appended + [e]) == (seed + appended) + [e];
      hide Newest;
      NewestMore(events, seed + appended, e);
      events := events + [e];
      if |events| > MAX_SESSION_EVENTS {
        events := events[|events| - MAX_SESSION_EVENTS..];
      }
      appended := appended + [e];
    }

    method AppendAll(out: seq<Event>)
      requires Newest(events, seed + appended)
      modifies this`events, this`appended
      ensures Newest(events, seed + appended) && appended == old(appended) + out
    {
      hide Newest;
      ghost var h := appended;
      var i := 0;
      while i < |out|
        invariant 0 <= i <= |out|
        invariant Newest(events, seed + appended) && appended == h + out[..i]
      {
        Append(out[i]);
        assert out[..i + 1] == out[..i] + [out[i]];
        i := i + 1;
      }
      assert out[..i] == out;
    }

    /** Takes the aggregates due, or all of them, out of `pending`, oldest first. */
    method TakeDue(all: bool, now: Time) returns (out: seq<Event>)
      requires Collapsing(pending)
      modifies this`pending
      ensures Ordered(out) && Collapsing(pending)
      ensures AllLabelled(out)
      ensures forall k :: CountOf(old(pending), k) == CountOf(pending, k) + Flushed(out, k)
      ensures pending == NotDue(old(pending), all, now, window)
          && SetOf(out) == DueEvents(old(pending), all, now, window)
    {
      hide Ordered, AllLabelled, WellLabelled;
      out := [];
      NoneYet();
      var was := pending;
      var todo := pending.Keys;
      while todo != {}
        invariant todo <= was.Keys && Ordered(out)
        invariant pending == map k | k in was && (k in todo || !Due(was[k], all, now, window)) :: was[k]
        invariant SetOf(out) == set k | k in was && k !in todo && Due(was[k], all, now, window) :: was[k].event
        invariant AllLabelled(out)
        invariant forall k :: CountOf(was, k) == CountOf(pending, k) + Flushed(out, k)
      {
        var k :| k in todo;
        todo := todo - {k};
        if all || now - was[k].start >= window {
          ghost var before := out;
          out := InsertByTime(out, was[k].event);
          SetOfMore(before, out, was[k].event);
          LabelledInsert(before, out, was[k].event);
          pending := pending - {k};
          forall j ensures CountOf(was, j) == CountOf(pending, j) + Flushed(out, j) {
            OneUse(was[k].event, j);
          }
        }
      }
    }

    /** Turns the aggregates due, or all of them, into recorded events. */
    method FlushUses(all: bool, now: Time) returns (out: seq<Event>)
      requires Valid()
      modifies this`events, this`pending, this`appended, this`here
      ensures Valid() && Ordered(out)
      ensures appended == old(appended) + out && here == old(here) + out
      ensures forall k :: k in pending <==> k in old(pending) && !all && now - old(pending)[k].start < window
      ensures pending == NotDue(old(pending), all, now, window)
          && SetOf(out) == DueEvents(old(pending), all, now, window)
    {
      hide Conserved, Delivered, Collapsing, Newest, AllLabelled, DueEvents, NotDue, SetOf, Ordered, CountOf;
      DueIsOver(pending, all, now, window);
      out := TakeDue(all, now);
      AppendAll(out);
      DeliveredMore(old(appended), out, sink, parked, hands, here);
      LabelledMore(old(appended), out);
      here := here + out;
      ConservedFlush(used, old(pending), pending, old(appended), out);
    }

    /** One more use of `key`: it joins the pending aggregate, or starts one. What was due goes with the
        thread. */
    method RecordAggregated(key: Key, secret: Option<Label>, now: Time) returns (flushed: seq<Event>)
      requires Between()
      modifies this`events, this`pending, this`appended, this`here, this`hands, this`used
      ensures Between() && appended == old(appended) + flushed && hands == old(hands) + [flushed]
      ensures used == old(used)[key := Total(old(used), key) + 1]
      ensures SetOf(flushed) == DueEvents(old(pending), false, now, window)
      ensures key in pending && forall k :: k in pending && k != key ==> now - pending[k].start < window
      // What is left joins the use: the aggregate it has already, or a new one that starts now.
      ensures var left := NotDue(old(pending), false, now, window);
        var agg := if key in left then left[key] else Aggregate(now, Uses(key, now / SECOND, 0, []));
        agg.event.Uses? && WellLabelled(agg.event) && pending == left[key := agg.(event := OneMore(agg.event, secret))]
    {
      hide Conserved, Delivered, Newest, AllLabelled, DueEvents, NotDue, SetOf, Ordered, OneMore;
      DueIsOver(pending, false, now, window);
      flushed := FlushUses(false, now);
      assert here == flushed;
      var agg := if key in pending then pending[key] else Aggregate(now, Uses(key, now / SECOND, 0, []));
      ghost var next := agg.(event := OneMore(agg.event, secret));
      ConservedUse(used, pending, appended, key, next);
      CollapsingUse(pending, key, next);
      pending := pending[key := agg.(event := OneMore(agg.event, secret))];
      used := used[key := Total(used, key) + 1];
      Leave(flushed);
    }

    /** A session found over by a request: its uses, then its lock, are parked for later. */
    method CollectSession(now: Time) returns (filed: seq<Event>)
      requires Between()
      modifies this`events, this`pending, this`parked, this`appended, this`here
      ensures Between() && pending == map[]
      ensures filed != [] && filed[|filed| - 1] == Lock(now / SECOND) && Ordered(filed[..|filed| - 1])
      ensures appended == old(appended) + filed && parked == old(parked) + filed
    {
      hide Conserved, Delivered, Collapsing, Newest, AllLabelled;
      var flushed := FlushUses(true, now);
      RecordEvent(Lock(now / SECOND));
      filed := flushed + [Lock(now / SECOND)];
      assert here == filed;
      assert old(appended) + flushed + [Lock(now / SECOND)] == old(appended) + filed;
      DeliveredLeave(appended, sink, parked, hands, here);
      parked := parked + filed;
      here := [];
      assert filed[..|filed| - 1] == flushed;
      AllTaken(old(pending), pending, now, window);
    }

    /** A lock: everything pending happened before it, and is filed before it. */
    method LockSession(live: bool, now: Time) returns (filed: seq<Event>)
      requires Between()
      modifies this`events, this`pending, this`appended, this`here, this`hands
      ensures Between() && pending == map[] && appended == old(appended) + filed && hands == old(hands) + [filed]
      ensures live ==> filed != [] && filed[|filed| - 1] == Lock(now / SECOND) && Ordered(filed[..|filed| - 1])
      ensures !live ==> Ordered(filed)
    {
      hide Conserved, Delivered, Collapsing, Newest, AllLabelled, DueEvents, NotDue, SetOf, Ordered;
      var flushed := FlushUses(true, now);
      AllTaken(old(pending), pending, now, window);
      filed := flushed;
      if live {
        RecordEvent(Lock(now / SECOND));
        filed := flushed + [Lock(now / SECOND)];
        assert filed[..|filed| - 1] == flushed;
        assert old(appended) + flushed + [Lock(now / SECOND)] == old(appended) + filed;
      }
      Leave(filed);
    }

    /** Takes what is parked, whole, to hand on once the mutex is free. */
    method TakeParked()
      requires Between()
      modifies this`parked, this`hands
      ensures Between() && parked == [] && hands == old(hands) + [old(parked)]
    {
      hide Newest, Conserved, Collapsing, AllLabelled;
      HeldMore(hands, parked);
      hands := hands + [parked];
      parked := [];
    }

    /** One thread hands the durable file the first of what it holds. */
    method HandOn(th: nat)
      requires Between() && th < |hands| && hands[th] != []
      modifies this`sink, this`hands
      ensures Between() && sink == old(sink) + [old(hands)[th][0]] && hands == old(hands)[th := old(hands)[th][1..]]
    {
      hide Newest, Conserved, Collapsing, AllLabelled;
      HeldLess(hands, th);
      sink := sink + [hands[th][0]];
      hands := hands[th := hands[th][1..]];
    }

    /** The ring, newest first, with nothing left pending. */
    method History(now: Time) returns (out: seq<Event>, flushed: seq<Event>)
      requires Between()
      modifies this`events, this`pending, this`appended, this`here, this`hands
      ensures Between() && pending == map[]
      ensures appended == old(appended) + flushed && hands == old(hands) + [flushed]
      ensures |out| == |events| && forall i :: 0 <= i < |out| ==> out[i] == events[|events| - 1 - i]
      // The newest ever recorded comes first, and the rest follow back in time.
      ensures var n := |seed| + |appended|;
        |out| == (if n < MAX_SESSION_EVENTS then n else MAX_SESSION_EVENTS)
        && forall i :: 0 <= i < |out| ==> out[i] == (seed + appended)[n - 1 - i]
      ensures forall k :: Total(used, k) == Flushed(appended, k)
    {
      hide Delivered, Collapsing, Newest, AllLabelled, DueEvents, NotDue, SetOf, Ordered;
      flushed := FlushUses(true, now);
      AllTaken(old(pending), pending, now, window);
      out := [];
      var i := |events|;
      while i > 0
        invariant 0 <= i <= |events| && |out| == |events| - i
        invariant forall j :: 0 <= j < |out| ==> out[j] == events[|events| - 1 - j]
      {
        i := i - 1;
        out := out + [events[i]];
      }
      ShowsNewest(out);
      Leave(flushed);
    }

    lemma ShowsNewest(out: seq<Event>)
      requires Valid() && |out| == |events| && forall i :: 0 <= i < |out| ==> out[i] == events[|events| - 1 - i]
      ensures var n := |seed| + |appended|;
        |out| == (if n < MAX_SESSION_EVENTS then n else MAX_SESSION_EVENTS)
        && forall i :: 0 <= i < |out| ==> out[i] == (seed + appended)[n - 1 - i]
    {
      NewestFirst(events, seed + appended, out);
    }

    /** No thread is on its way to the durable file, and nothing waits for one. */
    ghost predicate Quiescent()
      reads this
    {
      parked == [] && forall th :: 0 <= th < |hands| ==> hands[th] == []
    }

    lemma QuiescentIsDelivered()
      requires Between() && Quiescent()
      ensures multiset(sink) == multiset(appended)
    {
      NoneHeld(hands);
    }

    /** Handing on whatever is left gets there: no event waits for one that never comes. */
    method Drain()
      requires Between()
      modifies this`parked, this`hands, this`sink
      ensures Between() && Quiescent() && multiset(sink) == multiset(appended)
    {
      hide Valid;
      TakeParked();
      var th := 0;
      while th < |hands|
        invariant 0 <= th <= |hands| == old(|hands|) + 1 && Between() && parked == []
        invariant forall t :: 0 <= t < th ==> hands[t] == []
        decreases |hands| - th
      {
        while hands[th] != []
          invariant |hands| == old(|hands|) + 1 && Between() && parked == []
          invariant forall t :: 0 <= t < th ==> hands[t] == []
          decreases |hands[th]|
        {
          HandOn(th);
        }
        th := th + 1;
      }
      QuiescentIsDelivered();
    }

    /** One section, or one hand-on, of any thread. */
    method Step(a: Act)
      requires Between() && Sound(a)
      modifies this
      ensures Between() && old(appended) <= appended && old(sink) <= sink
    {
      match a
      case Noted(e) => Note(e);
      case Used(key, secret, now) => var _ := RecordAggregated(key, secret, now);
      case Collected(now) => var _ := CollectSession(now);
      case Locked(live, now) => var _ := LockSession(live, now);
      case Taken => TakeParked();
      case Shown(now) => var _, _ := History(now);
      case Handed(th) =>
        if 0 <= th < |hands| && hands[th] != [] {
          HandOn(th);
        }
    }

    /** Every interleaving of sections and hand-ons: once no thread is left with anything and nothing is
        parked, the durable file has got each recorded event exactly once. */
    method Interleave(acts: seq<Act>)
      requires Between() && forall i :: 0 <= i < |acts| ==> Sound(acts[i])
      modifies this
      ensures Between() && old(appended) <= appended && old(sink) <= sink
      ensures Quiescent() ==> multiset(sink) == multiset(appended)
    {
      var i := 0;
      while i < |acts|
        invariant 0 <= i <= |acts| && Between() && old(appended) <= appended && old(sink) <= sink
      {
        Step(acts[i]);
        i := i + 1;
      }
      if Quiescent() {
        QuiescentIsDelivered();
      }
    }
  }

  /** What a thread does next: a section under the mutex, or handing one event on after it. */
  datatype Act =
    | Noted(event: Event)
    | Used(key: Key, secret: Option<Label>, now: Time)
    | Collected(now: Time)
    | Locked(live: bool, now: Time)
    | Taken
    | Shown(now: Time)
    | Handed(th: nat)

  predicate Sound(a: Act) {
    a.Noted? ==> WellLabelled(a.event) && !a.event.Uses?
  }

  lemma SetOfMore(before: seq<Event>, out: seq<Event>, e: Event)
    requires multiset(out) == multiset(before) + multiset{e}
    ensures SetOf(out) == SetOf(before) + {e}
  {
    forall x ensures x in out <==> x in before || x == e {
      assert x in out <==> x in multiset(out);
      assert x in before <==> x in multiset(before);
    }
  }

  lemma NoneYet()
    ensures Ordered([]) && AllLabelled([])
  {
  }

  lemma LabelledInsert(before: seq<Event>, out: seq<Event>, e: Event)
    requires multiset(out) == multiset(before) + multiset{e} && AllLabelled(before) && WellLabelled(e)
    ensures AllLabelled(out)
  {
    forall x | x in out ensures WellLabelled(x) {
      assert x in multiset(out);
      assert x in multiset(before) || x == e;
    }
  }

  lemma NoUse(e: Event)
    requires !e.Uses?
    ensures forall k :: Flushed([e], k) == 0
  {
    assert [e][..0] == [];
  }

  lemma OneUse(e: Event, k: Key)
    requires e.Uses?
    ensures Flushed([e], k) == if e.source == k then e.count else 0
  {
    assert [e][..0] == [];
  }
}
