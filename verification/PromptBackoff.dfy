/** The growing pause after each refused question, one streak per asker. All of it runs under
    challengeMu, so a question's check, prompt and outcome come together. */
module PromptBackoff {

  type Time = int
  type Key = nat

  const SECOND := 1_000_000_000
  const SCHEDULE := [2 * SECOND, 8 * SECOND, 30 * SECOND]
  const MAX_KEYS := 64

  datatype Refusal = Refusal(count: nat, until: Time)

  datatype Outcome =
    | Refused(key: Key, shown: Time, at: Time)
    | Approved(key: Key)
    | Cleared

  function Pause(schedule: seq<int>, refusals: nat): int {
    if refusals == 0 || schedule == [] then 0
    else schedule[(if refusals > |schedule| then |schedule| else refusals) - 1]
  }

  predicate Ends(e: Outcome, k: Key) {
    e.Cleared? || e == Approved(k)
  }

  /** The refusals of `k` since its last approval, or the last time every pause was dropped. */
  function Streak(log: seq<Outcome>, k: Key): seq<Outcome> {
    if log == [] then [] else
      var before, e := Streak(log[..|log| - 1], k), log[|log| - 1];
      if Ends(e, k) then [] else if e.Refused? && e.key == k then before + [e] else before
  }

  ghost predicate Waits(schedule: seq<int>, st: seq<Outcome>, shown: Time) {
    st != [] && st[|st| - 1].Refused? ==> st[|st| - 1].at + Pause(schedule, |st|) <= shown
  }

  /** Every refused prompt went up only after the pause the refusals before it had earned. */
  ghost predicate Paced(schedule: seq<int>, log: seq<Outcome>) {
    forall i :: 0 <= i < |log| && log[i].Refused? ==>
      log[i].shown <= log[i].at && Waits(schedule, Streak(log[..i], log[i].key), log[i].shown)
  }

  function Refusals(log: seq<Outcome>, k: Key): nat {
    if log == [] then 0 else
      Refusals(log[..|log| - 1], k) + if log[|log| - 1].Refused? && log[|log| - 1].key == k then 1 else 0
  }

  ghost predicate StreakPaced(schedule: seq<int>, st: seq<Outcome>) {
    && (forall x :: 0 <= x < |st| ==> st[x].Refused? && st[x].shown <= st[x].at)
    && forall x :: 0 <= x < |st| - 1 ==> st[x].at + Pause(schedule, x + 1) <= st[x + 1].shown
  }

  lemma {:induction false} StreakIsPaced(schedule: seq<int>, log: seq<Outcome>, k: Key)
    requires Paced(schedule, log)
    ensures StreakPaced(schedule, Streak(log, k))
  {
    if log != [] {
      var before := log[..|log| - 1];
      forall i | 0 <= i < |before| ensures before[..i] == log[..i] {
      }
      StreakIsPaced(schedule, before, k);
    }
  }

  /** The least time from the first of `n` refused prompts to the last: two seconds to the second, eight more to
      the third, and half a minute to each one after. */
  function Least(n: nat): int {
    if n <= 1 then 0 else if n == 2 then 2 * SECOND else 10 * SECOND + 30 * SECOND * (n - 3)
  }

  /** Prompts come ever further apart. */
  lemma {:induction false} Spread(st: seq<Outcome>, p: nat, q: nat)
    requires StreakPaced(SCHEDULE, st) && p <= q < |st|
    ensures st[p].shown + Least(q - p + 1) <= st[q].shown
    decreases q
  {
    if p < q {
      Spread(st, p, q - 1);
      assert st[q - 1].at + Pause(SCHEDULE, q) <= st[q].shown;
    }
  }

  lemma {:induction false} StreakGrows(log: seq<Outcome>, i: nat, j: nat, k: Key)
    requires i <= j <= |log| && forall x :: i <= x < j ==> !Ends(log[x], k)
    ensures Streak(log[..i], k) <= Streak(log[..j], k)
    ensures |Streak(log[..j], k)| == |Streak(log[..i], k)| + Refusals(log[i..j], k)
    ensures forall x :: |Streak(log[..i], k)| <= x < |Streak(log[..j], k)| ==> Streak(log[..j], k)[x] in log[i..j]
    decreases j
  {
    if i < j {
      StreakGrows(log, i, j - 1, k);
      assert log[..j][..j - 1] == log[..j - 1];
      assert log[i..j][..j - i - 1] == log[i..j - 1];
      assert log[j - 1] in log[i..j];
    }
  }

  /** Over any stretch with no approval and nothing cleared one asker's refused prompts number one in its first
      two seconds, two in its first ten, and then at most three and one more for each half minute after that. */
  lemma WindowBound(log: seq<Outcome>, i: nat, j: nat, k: Key, from: Time, span: nat)
    requires Paced(SCHEDULE, log) && i <= j <= |log|
    requires forall x :: i <= x < j ==> !Ends(log[x], k)
    requires forall e :: e in log[i..j] && e.Refused? && e.key == k ==> from <= e.shown <= from + span
    ensures Refusals(log[i..j], k) <= if span < 2 * SECOND then 1 else if span < 10 * SECOND then 2
        else 3 + (span - 10 * SECOND) / (30 * SECOND)
  {
    StreakGrows(log, i, j, k);
    PrefixPaced(SCHEDULE, log, j);
    StreakIsPaced(SCHEDULE, log[..j], k);
    StreakOwn(log[..j], k);
    var st, p, n := Streak(log[..j], k), |Streak(log[..i], k)|, Refusals(log[i..j], k);
    if n > 0 {
      assert st[p] in log[i..j] && st[p + n - 1] in log[i..j];
      SpanBound(st, p, n, from, span);
    }
  }

  lemma PrefixPaced(schedule: seq<int>, log: seq<Outcome>, j: nat)
    requires Paced(schedule, log) && j <= |log|
    ensures Paced(schedule, log[..j])
  {
    forall x | 0 <= x < j ensures log[..j][..x] == log[..x] {
    }
  }

  lemma SpanBound(st: seq<Outcome>, p: nat, n: nat, from: Time, span: nat)
    requires StreakPaced(SCHEDULE, st) && n > 0 && p + n <= |st|
    requires from <= st[p].shown && st[p + n - 1].shown <= from + span
    ensures n <= if span < 2 * SECOND then 1 else if span < 10 * SECOND then 2
        else 3 + (span - 10 * SECOND) / (30 * SECOND)
  {
    Spread(st, p, p + n - 1);
  }

  lemma {:induction false} StreakOwn(log: seq<Outcome>, k: Key)
    ensures forall x :: 0 <= x < |Streak(log, k)| ==> Streak(log, k)[x].Refused? && Streak(log, k)[x].key == k
  {
    if log != [] {
      StreakOwn(log[..|log| - 1], k);
    }
  }

  /** What is held for `k` says how long its streak is, and when its pause is over. */
  ghost predicate Held(refusals: map<Key, Refusal>, schedule: seq<int>, st: seq<Outcome>, k: Key) {
    && (k in refusals <==> st != [])
    && (k in refusals ==> st[|st| - 1].Refused? && refusals[k] == Refusal(|st|,
        st[|st| - 1].at + Pause(schedule, |st|)))
  }

  ghost predicate HeldAll(refusals: map<Key, Refusal>, schedule: seq<int>, log: seq<Outcome>) {
    forall k :: Held(refusals, schedule, Streak(log, k), k)
  }

  lemma StreakStep(log: seq<Outcome>, e: Outcome, k: Key)
    ensures Streak(log + [e], k) ==
            (if Ends(e, k) then [] else if e.Refused? && e.key == k then Streak(log, k) + [e] else Streak(log, k))
  {
    assert (log + [e])[..|log|] == log;
  }

  lemma PacedStep(schedule: seq<int>, log: seq<Outcome>, e: Outcome)
    requires Paced(schedule, log)
    requires e.Refused? ==> e.shown <= e.at && Waits(schedule, Streak(log, e.key), e.shown)
    ensures Paced(schedule, log + [e])
  {
    assert (log + [e])[..|log|] == log;
    forall i | 0 <= i < |log| ensures (log + [e])[..i] == log[..i] {
    }
  }

  lemma HeldDropped(refusals: map<Key, Refusal>, schedule: seq<int>, log: seq<Outcome>, e: Outcome)
    requires HeldAll(refusals, schedule, log) && !e.Refused?
    ensures HeldAll(if e.Cleared? then map[] else refusals - {e.key}, schedule, log + [e])
  {
    var left := if e.Cleared? then map[] else refusals - {e.key};
    forall k ensures Held(left, schedule, Streak(log + [e], k), k) {
      StreakStep(log, e, k);
      assert Held(refusals, schedule, Streak(log, k), k);
    }
  }

  /** One more refusal for `k`, and the pause it earns. */
  function Raised(refusals: map<Key, Refusal>, schedule: seq<int>, k: Key, now: Time): map<Key, Refusal> {
    var count := (if k in refusals then refusals[k].count else 0) + 1;
    refusals[k := Refusal(count, now + Pause(schedule, count))]
  }

  lemma HeldRefused(refusals: map<Key, Refusal>, schedule: seq<int>, log: seq<Outcome>, e: Outcome)
    requires HeldAll(refusals, schedule, log) && e.Refused?
    ensures HeldAll(Raised(refusals, schedule, e.key, e.at), schedule, log + [e])
  {
    var more := Raised(refusals, schedule, e.key, e.at);
    forall k ensures Held(more, schedule, Streak(log + [e], k), k) {
      StreakStep(log, e, k);
      assert Held(refusals, schedule, Streak(log, k), k);
    }
  }

  lemma EscalateFacts(refusals: map<Key, Refusal>, schedule: seq<int>, log: seq<Outcome>, k: Key, shown: Time,
      now: Time)
    requires |refusals| <= MAX_KEYS && (k in refusals || |refusals| < MAX_KEYS)
    requires HeldAll(refusals, schedule, log) && Paced(schedule, log) && shown <= now
        && Waits(schedule, Streak(log, k), shown)
    ensures var log' := log + [Refused(k, shown, now)]; var more := Raised(refusals, schedule, k, now);
      HeldAll(more, schedule, log') && Paced(schedule, log') && |more| <= MAX_KEYS
  {
    HeldRefused(refusals, schedule, log, Refused(k, shown, now));
    PacedStep(schedule, log, Refused(k, shown, now));
    CapKept(refusals, k, Raised(refusals, schedule, k, now)[k]);
  }

  lemma CapKept(refusals: map<Key, Refusal>, k: Key, r: Refusal)
    requires |refusals| <= MAX_KEYS && (k in refusals || |refusals| < MAX_KEYS)
    ensures |refusals[k := r]| <= MAX_KEYS
  {
    if k in refusals {
      assert refusals[k := r].Keys == refusals.Keys;
    }
  }

  class Backoff {
    const schedule: seq<int>
    var refusals: map<Key, Refusal>
    ghost var log: seq<Outcome>

    ghost predicate Valid()
      reads this
    {
      && |refusals| <= MAX_KEYS
      && Paced(schedule, log)
      && HeldAll(refusals, schedule, log)
    }

    constructor (schedule: seq<int>)
      ensures Valid() && log == [] && this.schedule == schedule
    {
      this.schedule, refusals, log := schedule, map[], [];
    }

    /** A question is turned away exactly while its asker's pause lasts. */
    method Check(k: Key, now: Time) returns (ok: bool)
      requires Valid()
      ensures ok <==> Waits(schedule, Streak(log, k), now)
      ensures ok <==> !(k in refusals && now < refusals[k].until)
    {
      assert Held(refusals, schedule, Streak(log, k), k);
      ok := k !in refusals || refusals[k].until <= now;
    }

    /** `shown` is when the prompt went up, once Check had let it. */
    method NoteOutcome(k: Key, approved: bool, shown: Time, now: Time)
      requires Valid() && shown <= now && Waits(schedule, Streak(log, k), shown)
      modifies this
      ensures Valid()
      ensures approved ==> log == old(log) + [Approved(k)]
      ensures !approved && (old(k in refusals) || |old(refusals)| < MAX_KEYS) ==>
          log == old(log) + [Refused(k, shown, now)]
      ensures !approved && !(old(k in refusals) || |old(refusals)| < MAX_KEYS) ==>
          log == old(log) + [Cleared, Refused(k, shown, now)]
      // An approval ends the pause; a refusal earns a longer one, up to the last of the schedule.
      ensures approved ==> refusals == old(refusals) - {k}
      ensures !approved ==>
        && k in refusals && Lasts(refusals[k], now)
        && refusals[k].count == (if old(k in refusals) then old(refusals)[k].count else 0) + 1
    {
      if approved {
        Forgive(k);
        return;
      }
      if |refusals| >= MAX_KEYS && k !in refusals {
        StreakStep(log, Cleared, k);
        Clear();
      }
      Escalate(k, shown, now);
    }

    /** The pause of `r`, from `now` on. */
    predicate Lasts(r: Refusal, now: Time) {
      && r.count > 0
      && r.until - now == if schedule == [] then 0
           else if r.count < |schedule| then schedule[r.count - 1] else schedule[|schedule| - 1]
    }

    method Forgive(k: Key)
      requires Valid()
      modifies this
      ensures Valid() && log == old(log) + [Approved(k)] && refusals == old(refusals) - {k}
    {
      HeldDropped(refusals, schedule, log, Approved(k));
      assert (refusals - {k}).Keys == refusals.Keys - {k};
      refusals := refusals - {k};
      Add(Approved(k));
    }

    method Escalate(k: Key, shown: Time, now: Time)
      requires Valid() && shown <= now && Waits(schedule, Streak(log, k), shown)
      requires k in refusals || |refusals| < MAX_KEYS
      modifies this
      ensures Valid() && log == old(log) + [Refused(k, shown, now)]
      ensures k in refusals && Lasts(refusals[k], now)
        && refusals[k].count == (if old(k in refusals) then old(refusals)[k].count else 0) + 1
    {
      hide Waits, Streak, HeldAll, Paced;
      EscalateFacts(refusals, schedule, log, k, shown, now);
      var count := (if k in refusals then refusals[k].count else 0) + 1;
      refusals := refusals[k := Refusal(count, now + Pause(schedule, count))];
      log := log + [Refused(k, shown, now)];
    }

    /** A fresh unlock drops every pause, and so does a full map. */
    method Clear()
      requires Valid()
      modifies this
      ensures Valid() && log == old(log) + [Cleared] && refusals == map[]
    {
      HeldDropped(refusals, schedule, log, Cleared);
      refusals := map[];
      Add(Cleared);
    }

    ghost method Add(e: Outcome)
      requires Paced(schedule, log)
      requires e.Refused? ==> e.shown <= e.at && Waits(schedule, Streak(log, e.key), e.shown)
      modifies this`log
      ensures log == old(log) + [e] && Paced(schedule, log)
    {
      PacedStep(schedule, log, e);
      log := log + [e];
    }
  }
}
