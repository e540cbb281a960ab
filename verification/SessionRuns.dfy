/** The session among its callers, as a step system: any number of them queue for the prompt, timers fire
    and then wait for the mutex, and time passes between any two steps. */
module SessionRuns {
  import opened Wrappers
  import opened SessionSpec

  type Caller = nat

  /** An unlock, asked for by name or on the way to something else; or a question to a human, which may
      offer to unlock as well. */
  datatype Request = Unlock(explicit: bool) | Disclose(offer: bool)

  /** How far a caller is. All but the first hold challengeMu. */
  datatype Stage =
    | Waiting(request: Request)
    | Entered(request: Request)
    | Missed(explicit: bool)
    | Cleared(explicit: bool)
    | Peeked
    | Worded(opens: bool)
    | Asking(opens: bool, disclosed: bool)
    | Approved

  datatype State = State(sess: Sess, now: Time, holder: Option<Caller>, callers: map<Caller, Stage>)

  const INIT := State(NO_SESSION, 0, None, map[])

  datatype Label =
    | Tick(span: nat)
    | UseSession
    | PeekSession
    | Lock
    | Fire
    | RunTimer(timer: Timer)
    | Arrive(id: Caller, request: Request)
    | Enter(id: Caller)
    | Throttle(id: Caller)
    | TouchInside(id: Caller)
    | CheckCooldown(id: Caller)
    | PeekInside(id: Caller)
    | Word(id: Caller)
    | Show(id: Caller)
    | Answer(id: Caller, yes: bool)
    | AdoptSession(id: Caller)

  predicate At(s: State, id: Caller, stage: Stage) {
    id in s.callers && s.callers[id] == stage
  }

  predicate Can(s: State, l: Label) {
    match l
    case Tick(_) => true
    case UseSession => true
    case PeekSession => true
    case Lock => true
    case Fire => s.sess.armed.Some? && s.sess.armed.value.due <= s.now
    case RunTimer(t) => t in s.sess.fired
    case Arrive(id, _) => id !in s.callers
    case Enter(id) => id in s.callers && s.callers[id].Waiting? && s.holder.None?
    case Throttle(id) => id in s.callers && s.callers[id].Entered? && s.callers[id].request.Disclose?
    case TouchInside(id) => id in s.callers && s.callers[id].Entered? && s.callers[id].request.Unlock?
    case CheckCooldown(id) => id in s.callers && s.callers[id].Missed?
    case PeekInside(id) => At(s, id, Entered(Disclose(true)))
    case Word(id) => At(s, id, Entered(Disclose(false))) || At(s, id, Peeked)
    case Show(id) => id in s.callers && (s.callers[id].Cleared? || s.callers[id].Worded?)
    case Answer(id, _) => id in s.callers && s.callers[id].Asking?
    case AdoptSession(id) => At(s, id, Approved)
  }

  function Go(s: State, id: Caller, stage: Stage): State {
    s.(callers := s.callers[id := stage])
  }

  /** The caller is done and lets go of challengeMu. */
  function Leave(s: State, id: Caller): State {
    s.(callers := s.callers - {id}, holder := None)
  }

  function Under(s: State, sess: Sess): State {
    s.(sess := sess)
  }

  /** The prompt a caller is about to put up. */
  function Shown(stage: Stage, now: Time): Event
    requires stage.Cleared? || stage.Worded?
  {
    if stage.Cleared? then Prompted(now, true, stage.explicit) else Prompted(now, stage.opens, false)
  }

  function Do(c: Config, s: State, l: Label): State
    requires Can(s, l)
  {
    match l
    case Tick(span) => s.(now := s.now + span)
    case UseSession => Under(s, Touch(c, s.sess, s.now))
    case PeekSession => Under(s, Peek(c, s.sess, s.now))
    case Lock => Under(s, LockIfGen(s.sess, 0, s.now))
    case Fire => Under(s, s.sess.(armed := None, fired := s.sess.fired + {s.sess.armed.value}))
    case RunTimer(t) => Under(s, LockIfGen(s.sess.(fired := s.sess.fired - {t}), t.gen, s.now))
    case Arrive(id, request) => Go(s, id, Waiting(request))
    case Enter(id) => Go(s, id, Entered(s.callers[id].request)).(holder := Some(id))
    case Throttle(id) => Leave(s, id)
    case TouchInside(id) =>
      var t := Under(s, Touch(c, s.sess, s.now));
      if Hands(c, s.sess, s.now) then Leave(t, id) else Go(t, id, Missed(s.callers[id].request.explicit))
    case CheckCooldown(id) =>
      var explicit := s.callers[id].explicit;
      if !explicit && InCooldown(c, s.sess, s.now) then Leave(s, id) else Go(s, id, Cleared(explicit))
    case PeekInside(id) =>
      Go(Under(s, Peek(c, s.sess, s.now)), id, if Hands(c, s.sess, s.now) then Worded(false) else Peeked)
    case Word(id) => Go(s, id, Worded(s.callers[id].Peeked? && !InCooldown(c, s.sess, s.now)))
    case Show(id) =>
      var stage := s.callers[id];
      var e := Shown(stage, s.now);
      Go(Under(s, Note(s.sess, e)), id, Asking(e.opens, stage.Worded?))
    case Answer(id, yes) =>
      var stage := s.callers[id];
      var answered := Note(s.sess, Answered(s.now));
      if stage.disclosed then
        (if yes && stage.opens then Go(Under(s, answered), id, Approved) else Leave(Under(s, answered), id))
      else if yes then Leave(Under(s, Note(Install(c, answered, s.now), Copied(s.now, false))), id)
      else Leave(Under(s, Deny(answered, s.now)), id)
    case AdoptSession(id) => Leave(Under(s, Adopt(c, s.sess, s.now)), id)
  }

  /** The timers of the current generation, armed or fired. */
  ghost function Current(s: Sess): set<Timer> {
    (if s.armed.Some? then {s.armed.value} else {}) + set t | t in s.fired && t.gen == s.gen
  }

  ghost predicate Timers(s: Sess, now: Time) {
    && (s.armed.Some? ==> s.armed.value.gen == s.gen >= 1 && forall t :: t in s.fired ==> t.gen < s.gen)
    && (forall t :: t in s.fired ==> 1 <= t.gen <= s.gen && t.due <= now)
  }

  /** A live session agrees with its history, and has exactly one timer, due when its bounds run out. */
  ghost predicate Kept(c: Config, s: Sess, now: Time) {
    && Sound(c, s.trace)
    && Timers(s, now)
    && s.lastDenied == FailedAt(s.trace)
    && (s.live <==> OpenSince(s.trace).Some?)
    && (s.live ==> s.start == OpenSince(s.trace) && s.expiry == Some(UsedAt(s.trace) + c.ttl)
                   && Current(s) == {Timer(s.gen, Bound(c, s.trace))})
  }

  predicate Opens(stage: Stage) {
    match stage
    case Missed(_) => true
    case Cleared(_) => true
    case Peeked => true
    case Worded(opens) => opens
    case Asking(opens, disclosed) => opens || !disclosed
    case Approved => true
    case _ => false
  }

  predicate Rested(stage: Stage) {
    stage == Cleared(false) || stage == Worded(true)
  }

  /** challengeMu has one holder, and while it holds a chance to unlock nobody else opens a session. */
  ghost predicate Mutual(c: Config, live: bool, failed: Option<Time>, up: bool, now: Time,
      holder: Option<Caller>, callers: map<Caller, Stage>) {
    && (forall id :: id in callers && !callers[id].Waiting? ==> holder == Some(id))
    && (holder.Some? ==> holder.value in callers && !callers[holder.value].Waiting?)
    && (holder.Some? && Opens(callers[holder.value]) ==> !live)
    && (holder.Some? && Rested(callers[holder.value]) && failed.Some? ==> failed.value + c.cooldown <= now)
    && (up <==> holder.Some? && callers[holder.value].Asking?)
  }

  ghost predicate Inv(c: Config, s: State) {
    && Kept(c, s.sess, s.now)
    && Mutual(c, s.sess.live, FailedAt(s.sess.trace), PromptUp(s.sess.trace), s.now, s.holder, s.callers)
  }

  // What each section does to a kept session.

  /** What one more event changes of what a history says. */
  lemma Noted(h: seq<Event>, e: Event)
    ensures OpenSince(h + [e]) == (if e.Unlocked? then Some(e.at) else if e.Locked? then None else OpenSince(h))
    ensures UsedAt(h + [e]) == if e.Unlocked? || (e.Copied? && e.renews) then e.at else UsedAt(h)
    ensures FailedAt(h + [e]) == (if e.Unlocked? then None else if e.Denied? then Some(e.at) else FailedAt(h))
    ensures PromptUp(h + [e]) == (e.Prompted? || (!e.Answered? && PromptUp(h)))
  {
    assert (h + [e])[..|h|] == h;
  }

  lemma NoteKept(c: Config, s: Sess, e: Event, now: Time)
    requires Kept(c, s, now) && Follows(c, s.trace, e) && (e.Copied? ==> !e.renews)
        && (e.Copied? || e.Prompted? || e.Answered?)
    ensures Kept(c, Note(s, e), now)
  {
    SoundGrows(c, s.trace, e);
    Noted(s.trace, e);
  }

  lemma CollectKept(c: Config, s: Sess, now: Time)
    requires Kept(c, s, now) && s.live && Done(c, s, now)
    ensures Kept(c, Collect(s, now), now)
  {
    SoundGrows(c, s.trace, Locked(now, Idled));
    Noted(s.trace, Locked(now, Idled));
  }

  /** A touch inside both bounds starts the idle time over. */
  lemma RenewKept(c: Config, s: Sess, now: Time)
    requires Kept(c, s, now) && s.live && !Done(c, s, now)
    ensures Kept(c, Touch(c, s, now), now) && PromptUp(Touch(c, s, now).trace) == PromptUp(s.trace)
    ensures FailedAt(Touch(c, s, now).trace) == FailedAt(s.trace)
  {
    hide Sound, OpenSince, UsedAt, FailedAt, PromptUp;
    GrantsAgain(c, s, now);
    Noted(s.trace, Copied(now, true));
  }

  /** Handing the key out inside both bounds is sound. */
  lemma GrantsAgain(c: Config, s: Sess, now: Time)
    requires Kept(c, s, now) && s.live && !Done(c, s, now)
    ensures Sound(c, s.trace + [Copied(now, true)])
  {
    hide OpenSince, UsedAt, FailedAt, PromptUp;
    SoundGrows(c, s.trace, Copied(now, true));
  }

  lemma TouchKept(c: Config, s: Sess, now: Time)
    requires Kept(c, s, now)
    ensures Kept(c, Touch(c, s, now), now) && PromptUp(Touch(c, s, now).trace) == PromptUp(s.trace)
    ensures FailedAt(Touch(c, s, now).trace) == FailedAt(s.trace)
  {
    hide Kept, OpenSince, UsedAt, FailedAt, PromptUp;
    if s.live {
      if Done(c, s, now) {
        Noted(s.trace, Locked(now, Idled));
        CollectKept(c, s, now);
      } else {
        RenewKept(c, s, now);
      }
    }
  }

  lemma PeekKept(c: Config, s: Sess, now: Time)
    requires Kept(c, s, now)
    ensures Kept(c, Peek(c, s, now), now) && PromptUp(Peek(c, s, now).trace) == PromptUp(s.trace)
    ensures FailedAt(Peek(c, s, now).trace) == FailedAt(s.trace)
  {
    if s.live {
      if Done(c, s, now) {
        Noted(s.trace, Locked(now, Idled));
        CollectKept(c, s, now);
      } else {
        Noted(s.trace, Copied(now, false));
        NoteKept(c, s, Copied(now, false), now);
      }
    }
  }

  /** A session is installed only when none is live. */
  lemma InstallKept(c: Config, s: Sess, now: Time)
    requires Kept(c, s, now) && !s.live
    ensures Kept(c, Install(c, s, now), now) && PromptUp(Install(c, s, now).trace) == PromptUp(s.trace)
  {
    SoundGrows(c, s.trace, Unlocked(now));
    Noted(s.trace, Unlocked(now));
  }

  lemma AdoptKept(c: Config, s: Sess, now: Time)
    requires Kept(c, s, now)
    ensures Kept(c, Adopt(c, s, now), now) && PromptUp(Adopt(c, s, now).trace) == PromptUp(s.trace)
  {
    if !Hands(c, s, now) {
      if s.live {
        Noted(s.trace, Locked(now, Idled));
        CollectKept(c, s, now);
      }
      InstallKept(c, if s.live then Collect(s, now) else s, now);
    }
  }

  lemma FireKept(c: Config, s: Sess, now: Time)
    requires Kept(c, s, now) && s.armed.Some? && s.armed.value.due <= now
    ensures Kept(c, s.(armed := None, fired := s.fired + {s.armed.value}), now)
  {
    var t := s.(armed := None, fired := s.fired + {s.armed.value});
    assert Current(t) == Current(s);
  }

  lemma LockKept(c: Config, s: Sess, now: Time)
    requires Kept(c, s, now)
    ensures Kept(c, LockIfGen(s, 0, now), now) && PromptUp(LockIfGen(s, 0, now).trace) == PromptUp(s.trace)
    ensures FailedAt(LockIfGen(s, 0, now).trace) == FailedAt(s.trace)
  {
    if s.live {
      SoundGrows(c, s.trace, Locked(now, Asked));
      Noted(s.trace, Locked(now, Asked));
    }
  }

  /** A fired timer of an older generation changes nothing; one of the current generation ends the session
      no earlier than its bounds do. */
  lemma TimerKept(c: Config, s: Sess, t: Timer, now: Time)
    requires Kept(c, s, now) && t in s.fired
    ensures var s' := s.(fired := s.fired - {t}); t.gen != s.gen ==> LockIfGen(s', t.gen, now) == s'
    ensures var u := LockIfGen(s.(fired := s.fired - {t}), t.gen, now);
      Kept(c, u, now) && PromptUp(u.trace) == PromptUp(s.trace) && FailedAt(u.trace) == FailedAt(s.trace)
      && (s.live && !u.live ==> Bound(c, s.trace) <= now)
  {
    var s' := s.(fired := s.fired - {t});
    if t.gen != s.gen {
      assert Current(s') == Current(s);
    } else if s.live {
      assert t in Current(s);
      SoundGrows(c, s.trace, Locked(now, Timed));
      Noted(s.trace, Locked(now, Timed));
    }
  }

  lemma DenyKept(c: Config, s: Sess, now: Time)
    requires Kept(c, s, now)
    ensures Kept(c, Deny(s, now), now) && PromptUp(Deny(s, now).trace) == PromptUp(s.trace)
  {
    SoundGrows(c, s.trace, Denied(now));
    Noted(s.trace, Denied(now));
  }

  // What each step keeps.

  lemma SharedInv(c: Config, s: State, l: Label)
    requires Inv(c, s) && Can(s, l) && (l.Tick? || l.UseSession? || l.PeekSession? || l.Lock? || l.Fire? || l.RunTimer?)
    ensures Inv(c, Do(c, s, l))
  {
    match l
    case Tick(_) =>
    case UseSession => TouchKept(c, s.sess, s.now);
    case PeekSession => PeekKept(c, s.sess, s.now);
    case Lock => LockKept(c, s.sess, s.now);
    case Fire => FireKept(c, s.sess, s.now);
    case RunTimer(t) => TimerKept(c, s.sess, t, s.now);
  }

  /** The holder moves on. */
  lemma GoMutual(c: Config, live: bool, failed: Option<Time>, up: bool, now: Time, holder: Option<Caller>,
      callers: map<Caller, Stage>, id: Caller, stage: Stage)
    requires Mutual(c, live, failed, up, now, holder, callers) && holder == Some(id) && !stage.Waiting?
    requires Opens(stage) ==> !live
    requires Rested(stage) && failed.Some? ==> failed.value + c.cooldown <= now
    ensures Mutual(c, live, failed, stage.Asking?, now, holder, callers[id := stage])
  {
  }

  /** The holder leaves. */
  lemma LeaveMutual(c: Config, live: bool, live': bool, failed: Option<Time>, failed': Option<Time>, up: bool,
      now: Time, holder: Option<Caller>, callers: map<Caller, Stage>, id: Caller)
    requires Mutual(c, live, failed, up, now, holder, callers) && holder == Some(id)
    ensures Mutual(c, live', failed', false, now, None, callers - {id})
  {
  }

  lemma QueueInv(c: Config, s: State, l: Label)
    requires Inv(c, s) && Can(s, l) && (l.Arrive? || l.Enter? || l.Throttle?)
    ensures Inv(c, Do(c, s, l))
  {
  }

  lemma CheckInv(c: Config, s: State, l: Label)
    requires Inv(c, s) && Can(s, l) && (l.TouchInside? || l.CheckCooldown? || l.PeekInside? || l.Word?)
    ensures Inv(c, Do(c, s, l))
  {
    var failed, up := FailedAt(s.sess.trace), PromptUp(s.sess.trace);
    assert s.holder == Some(l.id);
    LeaveMutual(c, s.sess.live, Do(c, s, l).sess.live, failed, failed, up, s.now, s.holder, s.callers, l.id);
    match l
    case TouchInside(id) =>
      TouchKept(c, s.sess, s.now);
      if !Hands(c, s.sess, s.now) {
        GoMutual(c, false, failed, up, s.now, s.holder, s.callers, id, Missed(s.callers[id].request.explicit));
      }
    case CheckCooldown(id) =>
      if s.callers[id].explicit || !InCooldown(c, s.sess, s.now) {
        GoMutual(c, s.sess.live, failed, up, s.now, s.holder, s.callers, id, Cleared(s.callers[id].explicit));
      }
    case PeekInside(id) =>
      PeekKept(c, s.sess, s.now);
      GoMutual(c, Peek(c, s.sess, s.now).live, failed, up, s.now, s.holder, s.callers, id,
          if Hands(c, s.sess, s.now) then Worded(false) else Peeked);
    case Word(id) =>
      GoMutual(c, s.sess.live, failed, up, s.now, s.holder, s.callers, id,
          Worded(s.callers[id].Peeked? && !InCooldown(c, s.sess, s.now)));
  }

  /** A prompt going up, or coming down: nothing else changes. */
  lemma PromptKept(c: Config, s: Sess, e: Event, now: Time)
    requires Kept(c, s, now) && Follows(c, s.trace, e) && (e.Prompted? || e.Answered?)
    ensures Kept(c, Note(s, e), now)
    ensures PromptUp(Note(s, e).trace) == e.Prompted? && FailedAt(Note(s, e).trace) == FailedAt(s.trace)
  {
    NoteKept(c, s, e, now);
    Noted(s.trace, e);
  }

  /** What lets the holder's prompt up. */
  lemma ShowFollows(c: Config, s: State, id: Caller)
    requires Inv(c, s) && Can(s, Show(id))
    ensures s.holder == Some(id) && Follows(c, s.sess.trace, Shown(s.callers[id], s.now))
  {
  }

  lemma ShowInv(c: Config, s: State, id: Caller)
    requires Inv(c, s) && Can(s, Show(id))
    ensures Inv(c, Do(c, s, Show(id)))
  {
    var stage := s.callers[id];
    var e := Shown(stage, s.now);
    ShowFollows(c, s, id);
    PromptKept(c, s.sess, e, s.now);
    GoMutual(c, s.sess.live, FailedAt(s.sess.trace), PromptUp(s.sess.trace), s.now, s.holder, s.callers, id,
        Asking(e.opens, stage.Worded?));
  }

  lemma AnswerFollows(c: Config, s: State, id: Caller)
    requires Inv(c, s) && id in s.callers && s.callers[id].Asking?
    ensures s.holder == Some(id) && Follows(c, s.sess.trace, Answered(s.now))
    ensures s.callers[id].opens || !s.callers[id].disclosed ==> !s.sess.live
  {
  }

  /** An unlock approved: a session opens, and its caller gets the first copy. */
  lemma UnlockKept(c: Config, s: Sess, now: Time)
    requires Kept(c, s, now) && !s.live && !PromptUp(s.trace)
    ensures var t := Note(Install(c, s, now), Copied(now, false)); Kept(c, t, now) && !PromptUp(t.trace)
  {
    InstallKept(c, s, now);
    Noted(s.trace, Unlocked(now));
    var installed := Install(c, s, now);
    NoteKept(c, installed, Copied(now, false), now);
    Noted(installed.trace, Copied(now, false));
  }

  lemma AnswerInv(c: Config, s: State, id: Caller, yes: bool)
    requires Inv(c, s) && Can(s, Answer(id, yes))
    ensures Inv(c, Do(c, s, Answer(id, yes)))
  {
    AnswerFollows(c, s, id);
    PromptKept(c, s.sess, Answered(s.now), s.now);
    var answered, stage := Note(s.sess, Answered(s.now)), s.callers[id];
    var failed, up := FailedAt(s.sess.trace), PromptUp(s.sess.trace);
    if stage.disclosed && yes && stage.opens {
      GoMutual(c, s.sess.live, failed, up, s.now, s.holder, s.callers, id, Approved);
    } else {
      if !stage.disclosed && yes {
        UnlockKept(c, answered, s.now);
      } else if !stage.disclosed {
        DenyKept(c, answered, s.now);
      }
      var t := Do(c, s, Answer(id, yes)).sess;
      LeaveMutual(c, s.sess.live, t.live, failed, FailedAt(t.trace), up, s.now, s.holder, s.callers, id);
    }
  }

  lemma AdoptInv(c: Config, s: State, id: Caller)
    requires Inv(c, s) && Can(s, AdoptSession(id))
    ensures Inv(c, Do(c, s, AdoptSession(id)))
  {
    hide Kept, Adopt, Hands, FailedAt, PromptUp;
    AdoptKept(c, s.sess, s.now);
    var t := Adopt(c, s.sess, s.now);
    LeaveMutual(c, s.sess.live, t.live, FailedAt(s.sess.trace), FailedAt(t.trace), PromptUp(s.sess.trace), s.now,
        s.holder, s.callers, id);
  }

  lemma StepInv(c: Config, s: State, l: Label)
    requires Inv(c, s) && Can(s, l)
    ensures Inv(c, Do(c, s, l))
  {
    match l
    case Show(id) => ShowInv(c, s, id);
    case Answer(id, yes) => AnswerInv(c, s, id, yes);
    case AdoptSession(id) => AdoptInv(c, s, id);
    case _ =>
      if l.Tick? || l.UseSession? || l.PeekSession? || l.Lock? || l.Fire? || l.RunTimer? {
        SharedInv(c, s, l);
      } else if l.Arrive? || l.Enter? || l.Throttle? {
        QueueInv(c, s, l);
      } else {
        CheckInv(c, s, l);
      }
  }

  ghost predicate Run(c: Config, s: State, ls: seq<Label>)
    decreases |ls|, 0
  {
    ls != [] ==> Run(c, s, ls[..|ls| - 1]) && Can(After(c, s, ls[..|ls| - 1]), ls[|ls| - 1])
  }

  ghost function After(c: Config, s: State, ls: seq<Label>): State
    requires Run(c, s, ls)
    decreases |ls|, 1
  {
    if ls == [] then s else Do(c, After(c, s, ls[..|ls| - 1]), ls[|ls| - 1])
  }

  /** Every history any run leaves is sound, whatever callers, timers, locks and collections interleave. */
  lemma {:induction false} RunSound(c: Config, ls: seq<Label>)
    requires Run(c, INIT, ls)
    ensures Inv(c, After(c, INIT, ls)) && Sound(c, After(c, INIT, ls).sess.trace)
  {
    if ls != [] {
      RunSound(c, ls[..|ls| - 1]);
      StepInv(c, After(c, INIT, ls[..|ls| - 1]), ls[|ls| - 1]);
    }
  }

  /** In every run, a live session is the one last unlocked, and has exactly one timer of the current
      generation; no two callers are ever asking at once; and an approval that adopts finds no session. */
  lemma RunFacts(c: Config, ls: seq<Label>)
    requires Run(c, INIT, ls)
    ensures var s := After(c, INIT, ls);
      && (s.sess.live <==> OpenSince(s.sess.trace).Some?)
      && (s.sess.live ==> Current(s.sess) == {Timer(s.sess.gen, Bound(c, s.sess.trace))})
      && (forall a, b :: a in s.callers && b in s.callers && s.callers[a].Asking? && s.callers[b].Asking? ==> a == b)
      && (forall a :: At(s, a, Approved) ==> !s.sess.live)
  {
    RunSound(c, ls);
  }

  // What becomes of a request.

  /** The pause after the last failed unlock is on. */
  predicate Resting(c: Config, s: State) {
    s.sess.lastDenied.Some? && s.now < s.sess.lastDenied.value + c.cooldown
  }

  /** An unlock whose turn has come rides a session that is open. With none it gets its prompt, unless it was not
      asked for by name and the pause is on: then it is turned away, and nothing goes up. */
  lemma UnlockGoes(c: Config, s: State, id: Caller, explicit: bool)
    requires At(s, id, Waiting(Unlock(explicit))) && s.holder.None?
    ensures Can(s, Enter(id)) && Can(Do(c, s, Enter(id)), TouchInside(id))
    ensures var touched := Do(c, Do(c, s, Enter(id)), TouchInside(id));
      if Hands(c, s.sess, s.now) then
        && id !in touched.callers && touched.holder.None?
        && touched.sess.live && touched.sess.trace == s.sess.trace + [Copied(s.now, true)]
      else
        && Can(touched, CheckCooldown(id)) && touched.sess.lastDenied == s.sess.lastDenied
        && var checked := Do(c, touched, CheckCooldown(id));
           if !explicit && Resting(c, s) then
             id !in checked.callers && checked.holder.None? && checked.sess == touched.sess
           else
             && Can(checked, Show(id))
             && var shown := Do(c, checked, Show(id));
                && shown.sess.trace == touched.sess.trace + [Prompted(s.now, true, explicit)]
                && At(shown, id, Asking(true, false)) && shown.holder == Some(id)
  {
  }

  /** A question whose turn has come may be turned away, and then nothing goes up. One that goes up offers to unlock
      as well just when it may, no session is open and the pause is not on. */
  lemma DiscloseGoes(c: Config, s: State, id: Caller, offer: bool)
    requires At(s, id, Waiting(Disclose(offer))) && s.holder.None?
    ensures Can(s, Enter(id)) && Can(Do(c, s, Enter(id)), Throttle(id))
    ensures Do(c, Do(c, s, Enter(id)), Throttle(id)) == s.(callers := s.callers - {id})
    ensures var entered := Do(c, s, Enter(id));
      var opens := offer && !Hands(c, s.sess, s.now) && !Resting(c, s);
      && (offer ==> Can(entered, PeekInside(id)))
      && var peeked := if offer then Do(c, entered, PeekInside(id)) else entered;
         && (Can(peeked, Word(id)) || At(peeked, id, Worded(false)))
         && var worded := if Can(peeked, Word(id)) then Do(c, peeked, Word(id)) else peeked;
            && Can(worded, Show(id))
            && var shown := Do(c, worded, Show(id));
               && shown.sess.trace == worded.sess.trace + [Prompted(s.now, opens, false)]
               && At(shown, id, Asking(opens, true)) && shown.holder == Some(id)
  {
  }

  /** Approved, a question that offered to unlock opens a session from now, unless one is open by then. */
  lemma OfferOpens(c: Config, s: State, id: Caller)
    requires At(s, id, Asking(true, true))
    ensures Can(s, Answer(id, true))
    ensures var approved := Do(c, s, Answer(id, true));
      && Can(approved, AdoptSession(id))
      && var t := Do(c, approved, AdoptSession(id));
         && t.sess.live && id !in t.callers && t.holder.None?
         && (!Hands(c, s.sess, s.now) ==> t.sess.start == Some(s.now) && OpenSince(t.sess.trace) == Some(s.now))
  {
  }

  // What single steps of a run do.

  /** Time passes, and a caller that arrives waits with what it asks for. */
  lemma TimePasses(c: Config, s: State, span: nat, id: Caller, request: Request)
    ensures Do(c, s, Tick(span)) == s.(now := s.now + span)
    ensures id !in s.callers ==> Do(c, s, Arrive(id, request)) == s.(callers := s.callers[id := Waiting(request)])
  {
  }

  /** A use of an open session is on record and starts its idle time over, a look is on record and does not; either
      one collects a session past its bounds. */
  lemma UseGoes(c: Config, s: State)
    requires Inv(c, s)
    ensures var used, seen := Do(c, s, UseSession).sess, Do(c, s, PeekSession).sess;
      if s.sess.live && s.now < Bound(c, s.sess.trace) then
        && used.live && used.trace == s.sess.trace + [Copied(s.now, true)] && used.expiry == Some(s.now + c.ttl)
        && seen == s.sess.(trace := s.sess.trace + [Copied(s.now, false)])
      else
        && !used.live && used == seen
        && used.trace == if s.sess.live then s.sess.trace + [Locked(s.now, Idled)] else s.sess.trace
  {
  }

  /** Its bounds run out, an open session's timer can fire, and its turn then ends the session. */
  lemma TimerGoes(c: Config, s: State)
    requires Inv(c, s) && s.sess.live && Bound(c, s.sess.trace) <= s.now
    ensures var timer := Timer(s.sess.gen, Bound(c, s.sess.trace));
      if s.sess.armed.Some? then
        && Can(s, Fire) && Can(Do(c, s, Fire), RunTimer(timer))
        && !Do(c, Do(c, s, Fire), RunTimer(timer)).sess.live
      else
        Can(s, RunTimer(timer)) && !Do(c, s, RunTimer(timer)).sess.live
  {
    var timer := Timer(s.sess.gen, Bound(c, s.sess.trace));
    assert timer in Current(s.sess);
    assert s.sess.armed.Some? ==> s.sess.armed.value in Current(s.sess);
  }

  /** A lock someone asked for ends the session, whatever timer is armed. */
  lemma AskedLockEnds(c: Config, s: State)
    requires Inv(c, s)
    ensures var t := Do(c, s, Lock);
      && !t.sess.live && t.sess.start.None? && t.sess.expiry.None? && t.sess.armed.None?
      && OpenSince(t.sess.trace).None?
      && t.sess.trace == if s.sess.live then s.sess.trace + [Locked(s.now, Asked)] else s.sess.trace
  {
    LockKept(c, s.sess, s.now);
  }

  /** So does the turn of the current timer, and that of no other. */
  lemma TimerLockEnds(c: Config, s: State, timer: Timer)
    requires Inv(c, s) && Can(s, RunTimer(timer))
    ensures var t := Do(c, s, RunTimer(timer));
      && (timer.gen == s.sess.gen ==> !t.sess.live && t.sess.armed.None? && OpenSince(t.sess.trace).None?)
      && (timer.gen != s.sess.gen ==> t == s.(sess := s.sess.(fired := s.sess.fired - {timer})))
  {
    TimerKept(c, s.sess, timer, s.now);
  }

  /** A refused unlock prompt is noted, and the pause counts from it. */
  lemma RefusalIsNoted(c: Config, s: State, id: Caller)
    requires Inv(c, s) && Can(s, Answer(id, false)) && !s.callers[id].disclosed
    ensures var t := Do(c, s, Answer(id, false));
      && t.sess.lastDenied == FailedAt(t.sess.trace) == Some(s.now)
      && t.sess.live == s.sess.live && t.holder.None? && id !in t.callers
  {
    AnswerInv(c, s, id, false);
    Noted(s.sess.trace + [Answered(s.now)], Denied(s.now));
  }

  /** An approved one opens a session from now, and its caller gets a copy. */
  lemma ApprovalOpens(c: Config, s: State, id: Caller)
    requires Inv(c, s) && Can(s, Answer(id, true)) && !s.callers[id].disclosed
    ensures var t := Do(c, s, Answer(id, true));
      && t.sess.live && OpenSince(t.sess.trace) == t.sess.start == Some(s.now) && FailedAt(t.sess.trace).None?
      && t.sess.trace[|t.sess.trace| - 1] == Copied(s.now, false) && t.holder.None? && id !in t.callers
  {
    AnswerInv(c, s, id, true);
    var h := s.sess.trace + [Answered(s.now)];
    Noted(h, Unlocked(s.now));
    Noted(h + [Unlocked(s.now)], Copied(s.now, false));
  }

  lemma {:induction false} TraceGrows(c: Config, s: State, a: seq<Label>, n: nat)
    requires Run(c, s, a) && n <= |a|
    ensures Run(c, s, a[..n]) && After(c, s, a[..n]).sess.trace <= After(c, s, a).sess.trace
    decreases |a|
  {
    if n == |a| {
      assert a[..n] == a;
    } else {
      var front := a[..|a| - 1];
      TraceGrows(c, s, front, n);
      assert front[..n] == a[..n];
      StepAdds(c, After(c, s, front), a[|a| - 1]);
    }
  }

  lemma StepAdds(c: Config, s: State, l: Label)
    requires Can(s, l)
    ensures s.sess.trace <= Do(c, s, l).sess.trace
  {
  }

  /** Once someone has asked for a lock, no copy of the key goes out until the next unlock. */
  lemma NothingAfterLock(c: Config, ls: seq<Label>, i: nat, j: nat)
    requires Run(c, INIT, ls) && i < |ls| && ls[i] == Lock && Run(c, INIT, ls[..i + 1])
    requires var h := After(c, INIT, ls).sess.trace;
      |After(c, INIT, ls[..i + 1]).sess.trace| <= j < |h| && h[j].Copied?
    ensures var n := |After(c, INIT, ls[..i + 1]).sess.trace|;
      exists k :: n <= k < j && After(c, INIT, ls).sess.trace[k].Unlocked?
  {
    var h, mid := After(c, INIT, ls).sess.trace, After(c, INIT, ls[..i + 1]).sess.trace;
    TraceGrows(c, INIT, ls, i + 1);
    RunSound(c, ls);
    assert ls[..i + 1][..i] == ls[..i];
    RunSound(c, ls[..i]);
    AskedLockEnds(c, After(c, INIT, ls[..i]));
    assert h[..|mid|] == mid;
    OpenWasUnlocked(h, j);
    var k :| 0 <= k < j && h[k] == Unlocked(OpenSince(h[..j]).value)
        && forall x :: k < x < j ==> !h[x].Unlocked? && !h[x].Locked?;
    if k < |mid| {
      StaysOpen(h, k, |mid|);
      assert false;
    }
  }
}
