/** One unlocked session: what each section under the server's mutex does to it, as functions, and what
    a history of it may look like. Each section reads the clock once. */
module SessionSpec {
  import opened Wrappers

  type Time = int

  /** The idle bound, the hard ceiling (none when not positive), and the pause after a failed unlock. */
  datatype Config = Config(ttl: int, maxAge: int, cooldown: int)

  /** An armed or fired lock timer: the arming it came from, and when it is due. */
  datatype Timer = Timer(gen: nat, due: Time)

  datatype Cause = Idled | Timed | Asked

  datatype Event =
    | Unlocked(at: Time)
    | Locked(at: Time, cause: Cause)
    | Copied(at: Time, renews: bool)
    | Prompted(at: Time, opens: bool, explicit: bool)
    | Answered(at: Time)
    | Denied(at: Time)

  /** The fields under the mutex, None for a zero time. `armed` is the timer that has yet to fire, `fired`
      those whose goroutines wait for the mutex. */
  datatype Sess = Sess(
    live: bool,
    start: Option<Time>,
    expiry: Option<Time>,
    gen: nat,
    armed: Option<Timer>,
    fired: set<Timer>,
    lastDenied: Option<Time>,
    trace: seq<Event>)

  const NO_SESSION := Sess(false, None, None, 0, None, {}, None, [])

  predicate Capped(c: Config, s: Sess) {
    s.start.Some? && c.maxAge > 0
  }

  predicate Done(c: Config, s: Sess, now: Time) {
    (s.expiry.Some? ==> s.expiry.value <= now) || (Capped(c, s) && s.start.value + c.maxAge <= now)
  }

  /** The nearer of two moments, when the second is one at all. */
  function Nearer(a: Time, capped: bool, b: Time): Time {
    if capped && b < a then b else a
  }

  function Note(s: Sess, e: Event): Sess {
    s.(trace := s.trace + [e])
  }

  function Arm(c: Config, s: Sess, now: Time): Sess {
    var cap := if s.start.Some? then s.start.value + c.maxAge else 0;
    s.(gen := s.gen + 1, armed := Some(Timer(s.gen + 1, Nearer(now + c.ttl, Capped(c, s), cap))))
  }

  function Collect(s: Sess, now: Time): Sess {
    Note(s.(live := false), Locked(now, Idled))
  }

  /** Whether a touch or a peek hands out a copy of the key. */
  predicate Hands(c: Config, s: Sess, now: Time) {
    s.live && !Done(c, s, now)
  }

  function Touch(c: Config, s: Sess, now: Time): Sess {
    if !s.live then s
    else if Done(c, s, now) then Collect(s, now)
    else Arm(c, Note(s, Copied(now, true)).(expiry := Some(now + c.ttl)), now)
  }

  function Peek(c: Config, s: Sess, now: Time): Sess {
    if !s.live then s
    else if Done(c, s, now) then Collect(s, now)
    else Note(s, Copied(now, false))
  }

  function Install(c: Config, s: Sess, now: Time): Sess {
    Arm(c, Note(s, Unlocked(now)).(live := true, lastDenied := None, start := Some(now), expiry := Some(now + c.ttl)),
        now)
  }

  /** `gen` is 0 for a lock someone asked for, else the generation of the timer that fired. */
  function LockIfGen(s: Sess, gen: nat, now: Time): Sess {
    if gen != 0 && gen != s.gen then s else
      var t := s.(live := false, start := None, expiry := None, armed := None);
      if s.live then Note(t, Locked(now, if gen == 0 then Asked else Timed)) else t
  }

  function Deny(s: Sess, now: Time): Sess {
    Note(s.(lastDenied := Some(now)), Denied(now))
  }

  predicate InCooldown(c: Config, s: Sess, now: Time) {
    s.lastDenied.Some? && now - s.lastDenied.value < c.cooldown
  }

  function Adopt(c: Config, s: Sess, now: Time): Sess {
    if Hands(c, s, now) then s else Install(c, if s.live then Collect(s, now) else s, now)
  }

  /** What status shows: what is left of the idle time or of the ceiling, whichever is less. */
  function Remaining(c: Config, s: Sess, now: Time): int
    requires s.expiry.Some?
  {
    var cap := if s.start.Some? then s.start.value + c.maxAge - now else 0;
    Nearer(s.expiry.value - now, Capped(c, s), cap)
  }

  // What a history says, read from its end.

  /** When the session now open was unlocked, if one is. */
  function OpenSince(h: seq<Event>): Option<Time> {
    if h == [] then None else
      match h[|h| - 1]
      case Unlocked(at) => Some(at)
      case Locked(_, _) => None
      case _ => OpenSince(h[..|h| - 1])
  }

  /** When a session was last unlocked or used. */
  function UsedAt(h: seq<Event>): Time {
    if h == [] then 0 else
      var e := h[|h| - 1];
      if e.Unlocked? || (e.Copied? && e.renews) then e.at else UsedAt(h[..|h| - 1])
  }

  /** When an unlock last failed, if none has succeeded since. */
  function FailedAt(h: seq<Event>): Option<Time> {
    if h == [] then None else
      match h[|h| - 1]
      case Unlocked(_) => None
      case Denied(at) => Some(at)
      case _ => FailedAt(h[..|h| - 1])
  }

  predicate PromptUp(h: seq<Event>) {
    h != [] &&
      match h[|h| - 1]
      case Prompted(_, _, _) => true
      case Answered(_) => false
      case _ => PromptUp(h[..|h| - 1])
  }

  /** The moment the open session's bounds allow no more. */
  function Bound(c: Config, h: seq<Event>): Time {
    var open := OpenSince(h);
    Nearer(UsedAt(h) + c.ttl, open.Some? && c.maxAge > 0, if open.Some? then open.value + c.maxAge else 0)
  }

  /** What may come after history `h`. */
  predicate Follows(c: Config, h: seq<Event>, e: Event) {
    match e
    case Unlocked(_) => OpenSince(h).None?
    // A session ends because someone asked, or once its bounds are reached, and not before.
    case Locked(at, cause) => OpenSince(h).Some? && (cause == Asked || Bound(c, h) <= at)
    // A copy is the unlock's own, or handed out inside both bounds.
    case Copied(at, _) => OpenSince(h).Some? && (OpenSince(h) == Some(at) || at < Bound(c, h))
    // A prompt goes up alone. One able to open a session goes up on none, asked for or out of cooldown.
    case Prompted(at, opens, explicit) =>
      && !PromptUp(h)
      && (opens ==> OpenSince(h).None?)
      && (opens && !explicit && FailedAt(h).Some? ==> FailedAt(h).value + c.cooldown <= at)
    case Answered(_) => PromptUp(h)
    case Denied(_) => true
  }

  ghost predicate Sound(c: Config, h: seq<Event>) {
    forall i :: 0 <= i < |h| ==> Follows(c, h[..i], h[i])
  }

  lemma SoundGrows(c: Config, h: seq<Event>, e: Event)
    requires Sound(c, h) && Follows(c, h, e)
    ensures Sound(c, h + [e])
  {
    assert (h + [e])[..|h|] == h;
    forall i | 0 <= i < |h| ensures (h + [e])[..i] == h[..i] {
    }
  }

  lemma {:induction false} OpenWasUnlocked(h: seq<Event>, n: nat)
    requires n <= |h| && OpenSince(h[..n]).Some?
    ensures exists i ::
      && 0 <= i < n && h[i] == Unlocked(OpenSince(h[..n]).value)
      && forall k :: i < k < n ==> !h[k].Unlocked? && !h[k].Locked?
  {
    assert h[..n][..n - 1] == h[..n - 1];
    if !h[n - 1].Unlocked? {
      OpenWasUnlocked(h, n - 1);
      var i :| 0 <= i < n - 1 && h[i] == Unlocked(OpenSince(h[..n]).value)
          && forall k :: i < k < n - 1 ==> !h[k].Unlocked? && !h[k].Locked?;
    }
  }

  lemma {:induction false} StaysOpen(h: seq<Event>, i: nat, n: nat)
    requires i < n <= |h| && h[i].Unlocked? && forall k :: i < k < n ==> !h[k].Locked?
    ensures OpenSince(h[..n]).Some?
  {
    assert h[..n][..n - 1] == h[..n - 1];
    if i < n - 1 {
      StaysOpen(h, i, n - 1);
    }
  }

  /** Unlocks and locks alternate: between two unlocks there is a lock, and each lock has its own unlock. */
  lemma Alternates(c: Config, h: seq<Event>, i: nat, j: nat)
    requires Sound(c, h) && i < j < |h|
    ensures h[i].Unlocked? && h[j].Unlocked? ==> exists k :: i < k < j && h[k].Locked?
    ensures h[i].Locked? && h[j].Locked? ==> exists k :: i < k < j && h[k].Unlocked?
  {
    if h[i].Unlocked? && h[j].Unlocked? && forall k :: i < k < j ==> !h[k].Locked? {
      StaysOpen(h, i, j);
    }
    if h[i].Locked? && h[j].Locked? {
      OpenWasUnlocked(h, j);
    }
  }

  /** However often a session is touched, no copy of its key goes out once the ceiling has passed since
      its own unlock. */
  lemma CopiesEndAtCeiling(c: Config, h: seq<Event>, j: nat)
    requires Sound(c, h) && j < |h| && h[j].Copied? && c.maxAge > 0
    ensures exists i ::
      && 0 <= i < j && h[i].Unlocked? && h[j].at < h[i].at + c.maxAge
      && forall k :: i < k < j ==> !h[k].Locked?
  {
    OpenWasUnlocked(h, j);
    var i :| 0 <= i < j && h[i] == Unlocked(OpenSince(h[..j]).value)
      && forall k :: i < k < j ==> !h[k].Unlocked? && !h[k].Locked?;
    assert h[j].at < h[i].at + c.maxAge;
  }

  lemma {:induction false} StaysFailed(h: seq<Event>, i: nat, n: nat)
    requires i < n <= |h| && h[i].Denied? && forall k :: i < k < n ==> !h[k].Denied? && !h[k].Unlocked?
    ensures FailedAt(h[..n]) == Some(h[i].at)
  {
    assert h[..n][..n - 1] == h[..n - 1];
    if i < n - 1 {
      StaysFailed(h, i, n - 1);
    }
  }

  /** After the last failed unlock, and with no unlock since, the next prompt able to open a session was
      asked for by name or waited out the cooldown. */
  lemma PromptsRest(c: Config, h: seq<Event>, i: nat, j: nat)
    requires Sound(c, h) && i < j < |h| && h[i].Denied? && h[j].Prompted? && h[j].opens
    requires forall k :: i < k < j ==> !h[k].Denied? && !h[k].Unlocked?
    ensures h[j].explicit || h[i].at + c.cooldown <= h[j].at
  {
    StaysFailed(h, i, j);
  }

  /** Status says unlocked exactly when a touch at that moment would hand out the key. */
  lemma StatusAgreesWithTouch(c: Config, s: Sess, now: Time)
    requires s.live ==> s.expiry.Some?
    ensures s.live && Remaining(c, s, now) > 0 <==> Hands(c, s, now)
    ensures Touch(c, s, now).live <==> Hands(c, s, now)
    ensures Peek(c, s, now).live <==> Hands(c, s, now)
  {
  }

  /** Both hand the key out at the same moments. A touch alone starts the idle time over and outdates every
      timer armed before; a peek moves no bound and no timer. */
  lemma TouchRenewsPeekDoesNot(c: Config, s: Sess, now: Time)
    requires s.live && s.expiry.Some? && now < s.expiry.value
    requires s.start.Some? && c.maxAge > 0 ==> now < s.start.value + c.maxAge
    ensures var t := Touch(c, s, now);
      && t.live && t.expiry == Some(now + c.ttl) && t.start == s.start && t.gen > s.gen
      && t.armed.Some? && t.armed.value.gen == t.gen && t.trace == s.trace + [Copied(now, true)]
    ensures Peek(c, s, now) == s.(trace := s.trace + [Copied(now, false)])
  {
  }

  /** Past either bound neither hands anything out, and the session is over for both. */
  lemma DoneEndsBoth(c: Config, s: Sess, now: Time)
    requires s.live && s.expiry.Some?
    requires s.expiry.value <= now || (s.start.Some? && c.maxAge > 0 && s.start.value + c.maxAge <= now)
    ensures Touch(c, s, now) == Peek(c, s, now) == s.(live := false, trace := s.trace + [Locked(now, Idled)])
  {
  }
}
