/** The server's session fields and the sections that change them, each run under the mutex with one
    clock reading, and each doing what the session specification says. Keys are byte buffers, wiped in
    place when a session ends. */
module SessionServer {
  import opened Wrappers
  import opened KeyBuffers
  import opened SessionSpec

  class Server {
    const config: Config
    var mek: array?<Byte>
    var sessionStart: Option<Time>
    var expiry: Option<Time>
    var timerGen: nat
    var armed: Option<Timer>
    var lastDenied: Option<Time>
    /** Fired timers whose goroutines wait for the mutex, every buffer handed to a caller, and what happened. */
    ghost var fired: set<Timer>
    ghost var handed: set<array<Byte>>
    ghost var trace: seq<Event>

    /** The cached key is nobody else's. */
    ghost predicate Valid()
      reads this
    {
      mek != null ==> mek !in handed
    }

    ghost function View(): Sess
      reads this
    {
      Sess(mek != null, sessionStart, expiry, timerGen, armed, fired, lastDenied, trace)
    }

    constructor (config: Config)
      ensures Valid() && View() == NO_SESSION && handed == {} && this.config == config
    {
      this.config, mek, sessionStart, expiry, timerGen, armed, lastDenied := config, null, None, None, 0, None, None;
      fired, handed, trace := {}, {}, [];
    }

    /** Every key ever handed out is as it was, and the cached buffer, if this call dropped it, is zero. */
    twostate predicate Private(was: array?<Byte>)
      requires was == old(mek)
      reads this, handed, was
    {
      && Valid() && old(handed) <= handed
      && (forall a :: a in old(handed) ==> a[..] == old(a[..]))
      && (was != null ==> if mek == was then was[..] == old(was[..]) else Wiped(was))
    }

    /** The nearer of the idle bound from `now` and the ceiling, when there is one. */
    ghost predicate DueAt(due: Time, now: Time)
      reads this
    {
      if sessionStart.Some? && config.maxAge > 0 && sessionStart.value + config.maxAge < now + config.ttl
      then due == sessionStart.value + config.maxAge
      else due == now + config.ttl
    }

    /** Inside both bounds, when a key is held. */
    ghost predicate Within(now: Time)
      reads this
    {
      && mek != null && expiry.Some? && now < expiry.value
      && (sessionStart.Some? && config.maxAge > 0 ==> now < sessionStart.value + config.maxAge)
    }

    /** Idle time, ceiling and timer are as they were. */
    twostate predicate SameBounds()
      reads this
    {
      expiry == old(expiry) && sessionStart == old(sessionStart) && timerGen == old(timerGen) && armed == old(armed)
    }

    method ArmLockTimer(now: Time)
      modifies this`timerGen, this`armed
      ensures View() == Arm(config, old(View()), now)
      ensures timerGen == old(timerGen) + 1 && armed.Some? && armed.value.gen == timerGen && DueAt(armed.value.due, now)
    {
      timerGen := timerGen + 1;
      var due := now + config.ttl;
      if sessionStart.Some? && config.maxAge > 0 && sessionStart.value + config.maxAge < due {
        due := sessionStart.value + config.maxAge;
      }
      armed := Some(Timer(timerGen, due));
    }

    method CollectIfDone(now: Time) returns (collected: bool)
      requires Valid() && mek != null
      modifies this`mek, this`trace, mek
      ensures Private(old(mek)) && handed == old(handed) && mek == if collected then null else old(mek)
      ensures collected == Done(config, old(View()), now) == !old(Within(now)) && SameBounds()
      ensures View() == if collected then Collect(old(View()), now) else old(View())
      ensures trace == if collected then old(trace) + [Locked(now, Idled)] else old(trace)
    {
      var aged := sessionStart.Some? && config.maxAge > 0 && sessionStart.value + config.maxAge <= now;
      if expiry.Some? && now < expiry.value && !aged {
        return false;
      }
      trace := trace + [Locked(now, Idled)];
      Wipe(mek);
      mek := null;
      return true;
    }

    /** A copy of the cached key: the caller's to keep, and to wipe. */
    method MekCopy() returns (out: array<Byte>)
      requires Valid() && mek != null
      modifies this`handed
      ensures Private(old(mek)) && fresh(out) && out[..] == mek[..] && handed == old(handed) + {out}
    {
      out := CopyOf(mek);
      handed := handed + {out};
    }

    /** A copy of the live session's key, with its idle time started over; nothing when it is over. */
    method TouchSession(now: Time) returns (key: array?<Byte>)
      requires Valid()
      modifies this, mek
      ensures Private(old(mek)) && View() == Touch(config, old(View()), now)
      ensures key != null <==> Hands(config, old(View()), now)
      ensures key != null ==> fresh(key) && key in handed && key[..] == old(mek[..])
      ensures key != null <==> old(Within(now))
      ensures key != null ==> mek == old(mek) && trace == old(trace) + [Copied(now, true)]
      ensures key != null ==>
        expiry == Some(now + config.ttl) && timerGen > old(timerGen) && armed.Some? && DueAt(armed.value.due, now)
      ensures key == null ==> mek == null && SameBounds()
    {
      if mek == null {
        return null;
      }
      var collected := CollectIfDone(now);
      if collected {
        return null;
      }
      key := MekCopy();
      trace := trace + [Copied(now, true)];
      expiry := Some(now + config.ttl);
      ArmLockTimer(now);
    }

    /** A copy of the live session's key that buys it no more time. */
    method PeekSession(now: Time) returns (key: array?<Byte>)
      requires Valid()
      modifies this, mek
      ensures Private(old(mek)) && View() == Peek(config, old(View()), now)
      ensures key != null <==> Hands(config, old(View()), now)
      ensures key != null ==> fresh(key) && key in handed && key[..] == old(mek[..])
      ensures key != null <==> old(Within(now))
      ensures key != null ==> mek == old(mek) && trace == old(trace) + [Copied(now, false)]
      ensures (key == null ==> mek == null) && SameBounds()
    {
      if mek == null {
        return null;
      }
      var collected := CollectIfDone(now);
      if collected {
        return null;
      }
      key := MekCopy();
      trace := trace + [Copied(now, false)];
    }

    /** Makes `key` the session's, which takes the buffer as its own. */
    method InstallSession(key: array<Byte>, now: Time)
      requires Valid() && mek == null && key !in handed
      modifies this
      ensures Private(old(mek)) && mek == key && handed == old(handed) && View() == Install(config, old(View()), now)
      ensures sessionStart == Some(now) && expiry == Some(now + config.ttl) && lastDenied.None?
      ensures timerGen > old(timerGen) && armed.Some? && DueAt(armed.value.due, now)
      ensures trace == old(trace) + [Unlocked(now)]
    {
      mek := key;
      trace := trace + [Unlocked(now)];
      lastDenied := None;
      sessionStart := Some(now);
      expiry := Some(now + config.ttl);
      ArmLockTimer(now);
    }

    /** An approved unlock prompt: `key` is the copy its fetcher returned. */
    method ApproveUnlock(key: array<Byte>, now: Time) returns (out: array<Byte>)
      requires Valid() && mek == null && key !in handed
      modifies this
      ensures Private(old(mek)) && View() == Note(Install(config, old(View()), now), Copied(now, false))
      ensures mek == key && fresh(out) && out != mek && out[..] == key[..]
      ensures sessionStart == Some(now) && expiry == Some(now + config.ttl) && lastDenied.None?
    {
      InstallSession(key, now);
      out := MekCopy();
      trace := trace + [Copied(now, false)];
    }

    method RefuseUnlock(now: Time)
      requires Valid()
      modifies this
      ensures Private(old(mek)) && mek == old(mek) && View() == Deny(old(View()), now)
      ensures lastDenied == Some(now) && trace == old(trace) + [Denied(now)] && SameBounds()
    {
      lastDenied := Some(now);
      trace := trace + [Denied(now)];
    }

    /** Opens the session with an approved question's key, if the vault is locked still. `key` stays the
        caller's to wipe: the session has a copy. */
    method AdoptSession(key: array<Byte>, now: Time)
      requires Valid() && key != mek
      modifies this, mek
      ensures Private(old(mek)) && View() == Adopt(config, old(View()), now)
      ensures key[..] == old(key[..]) && mek != key
      ensures !Hands(config, old(View()), now) ==> mek != null && fresh(mek) && mek[..] == key[..]
      ensures if old(Within(now)) then mek == old(mek) && SameBounds() && trace == old(trace)
        else sessionStart == Some(now) && expiry == Some(now + config.ttl) && lastDenied.None?
    {
      if mek != null {
        var collected := CollectIfDone(now);
        if !collected {
          return;
        }
      }
      var own := CopyOf(key);
      InstallSession(own, now);
    }

    /** A lock someone asked for (`gen` 0), or a fired timer's turn; a timer of an earlier arming finds
        its session gone and does nothing. */
    method LockIfGen(gen: nat, now: Time)
      requires Valid()
      modifies this, mek
      ensures Private(old(mek)) && handed == old(handed) && View() == SessionSpec.LockIfGen(old(View()), gen, now)
      ensures gen == 0 || gen == old(timerGen) ==>
        && mek == null && expiry.None? && sessionStart.None? && armed.None?
        && (old(mek) != null ==> Wiped(old(mek)))
        && trace == if old(mek) == null then old(trace)
             else old(trace) + [Locked(now, if gen == 0 then Asked else Timed)]
      ensures gen != 0 && gen != old(timerGen) ==> mek == old(mek) && SameBounds() && trace == old(trace)
    {
      if gen != 0 && gen != timerGen {
        return;
      }
      if mek != null {
        trace := trace + [Locked(now, if gen == 0 then Asked else Timed)];
        Wipe(mek);
        mek := null;
      }
      expiry, sessionStart, armed := None, None, None;
    }

    /** The time left to show, none when the vault is locked. */
    method Status(now: Time) returns (unlocked: bool, remaining: int)
      requires mek != null ==> expiry.Some?
      ensures unlocked == Hands(config, View(), now)
      ensures unlocked ==> remaining == Remaining(config, View(), now) > 0
      ensures unlocked <==> Within(now)
      ensures unlocked ==> DueAt(now + remaining, expiry.value - config.ttl)
    {
      if mek == null {
        return false, 0;
      }
      remaining := expiry.value - now;
      if sessionStart.Some? && config.maxAge > 0 && sessionStart.value + config.maxAge - now < remaining {
        remaining := sessionStart.value + config.maxAge - now;
      }
      unlocked := remaining > 0;
    }
  }
}
