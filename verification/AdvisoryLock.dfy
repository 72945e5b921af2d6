/**
 The PostgreSQL provider: polling pg_try_advisory_lock against a deadline, and the clean-up that
 unlocks, closes and decides which error the caller sees.
 */
module AdvisoryLock {
  import opened Wrappers

  /** The event loop's clock. It never goes back, and a sleep lasts at least as long as asked. */
  class EventLoop {
    var now: real

    constructor (start: real)
      ensures now == start
    {
      now := start;
    }

    method Elapse(atLeast: real)
      requires atLeast >= 0.0
      modifies this
      ensures now >= old(now) + atLeast
    {
      var extra: real := *;
      now := now + atLeast + (if extra > 0.0 then extra else 0.0);
    }

    /** Reading the clock may itself come late. */
    method Time() returns (t: real)
      modifies this
      ensures t == now && now >= old(now)
    {
      Elapse(0.0);
      t := now;
    }
  }

  /** A sleep of `length` asked for at time `at`. */
  datatype Sleep = Sleep(at: real, length: real)

  datatype Outcome = Acquired | TimedOut | Retry

  function Max(a: real, b: real): real {
    if a >= b then a else b
  }

  function Min(a: real, b: real): real {
    if a <= b then a else b
  }

  /** floor(remaining / poll) + 2, where a deadline already passed leaves nothing. */
  function AttemptBound(remaining: real, poll: real): int
    requires poll > 0.0
  {
    (Max(0.0, remaining) / poll).Floor + 2
  }

  /** The time that n full sleeps take. */
  function FullSleeps(n: nat, poll: real): real {
    if n == 0 then 0.0 else FullSleeps(n - 1, poll) + poll
  }

  lemma {:induction false} FullSleepsMultiply(n: nat, poll: real)
    ensures FullSleeps(n, poll) == n as real * poll
  {
    if n > 0 {
      FullSleepsMultiply(n - 1, poll);
    }
  }

  lemma ProductGrows(a: real, b: real, p: real)
    requires a <= b && p > 0.0
    ensures a * p <= b * p
  {
    assert (b - a) * p >= 0.0;
  }

  lemma ProductGrowsStrictly(a: real, b: real, p: real)
    requires a < b && p > 0.0
    ensures a * p < b * p
  {
    assert (b - a) * p > 0.0;
  }

  lemma QuotientExceeds(n: nat, remaining: real, poll: real)
    requires poll > 0.0 && n as real * poll <= remaining
    ensures (remaining / poll).Floor >= n
  {
    var q := remaining / poll;
    assert q * poll == remaining;
    if q < n as real {
      ProductGrowsStrictly(q, n as real, poll);
    }
  }

  /** Every attempt but the first and the last stands behind a full sleep. */
  lemma AttemptsFit(n: nat, remaining: real, poll: real)
    requires poll > 0.0 && (n > 0 ==> FullSleeps(n - 1, poll) < remaining)
    ensures n + 1 <= AttemptBound(remaining, poll)
  {
    if n > 0 {
      FullSleepsMultiply(n - 1, poll);
      ProductGrows(0.0, (n - 1) as real, poll);
      QuotientExceeds(n - 1, remaining, poll);
    } else {
      QuotientExceeds(0, Max(0.0, remaining), poll);
    }
  }

  /**
   The advisory locks of one server, at most one session to a key. A session holds the keys it was
   granted until it unlocks or closes; other sessions come and go but never move what it holds.
   */
  class LockServer {
    var holders: map<int, Session>

    constructor ()
      ensures holders == map[]
    {
      holders := map[];
    }

    /** What other processes may do while this session waits. */
    method OthersMove(session: Session)
      modifies this
      ensures forall key :: session.Has(this, key) <==> old(session.Has(this, key))
    {
      var theirs: map<int, Session> := *;
      holders := map key | key in theirs.Keys + holders.Keys && Holder(session, theirs, key).Some? ::
                   Holder(session, theirs, key).value;
    }

    /** This session's keys stay its own; any other session may have any other key. */
    function Holder(session: Session, theirs: map<int, Session>, key: int): Option<Session>
      reads this
    {
      if key in holders && holders[key] == session then Some(session)
      else if key in theirs && theirs[key] != session then Some(theirs[key])
      else None
    }
  }

  /** One connection, with what the server answered to its tries and what else was asked of it. */
  class Session {
    ghost var answers: seq<bool>
    ghost var unlocks: nat
    ghost var closed: bool

    constructor ()
      ensures answers == [] && unlocks == 0 && !closed
    {
      answers, unlocks, closed := [], 0, false;
    }

    predicate Has(server: LockServer, key: int)
      reads server
    {
      key in server.holders && server.holders[key] == this
    }

    /** pg_try_advisory_lock: granted unless another session holds the key. */
    method TryLock(server: LockServer, key: int) returns (acquired: bool)
      modifies this, server
      ensures acquired <==> key !in old(server.holders) || old(server.holders)[key] == this
      ensures server.holders == if acquired then old(server.holders)[key := this] else old(server.holders)
      ensures answers == old(answers) + [acquired] && unlocks == old(unlocks) && closed == old(closed)
    {
      acquired := key !in server.holders || server.holders[key] == this;
      if acquired {
        server.holders := server.holders[key := this];
      }
      answers := answers + [acquired];
    }

    /** pg_advisory_unlock. A call that fails may have reached the server or not. */
    method Unlock(server: LockServer, key: int, fails: bool)
      modifies this, server
      ensures answers == old(answers) && unlocks == old(unlocks) + 1 && closed == old(closed)
      ensures server.holders == old(server.holders) || server.holders == old(server.holders) - {key}
      ensures !fails ==> !Has(server, key)
      ensures !old(Has(server, key)) ==> server.holders == old(server.holders)
    {
      unlocks := unlocks + 1;
      var reached: bool := *;
      if (!fails || reached) && Has(server, key) {
        server.holders := server.holders - {key};
      }
    }

    /** The server drops whatever the session still holds, unless closing fails before it hears of it. */
    method Close(server: LockServer, fails: bool)
      modifies this, server
      ensures answers == old(answers) && unlocks == old(unlocks) && closed
      ensures forall key :: key in server.holders ==>
                key in old(server.holders) && server.holders[key] == old(server.holders)[key]
      ensures forall key :: key in old(server.holders) && key !in server.holders ==> old(server.holders)[key] == this
      ensures !fails ==> forall key :: !Has(server, key)
    {
      closed := true;
      var reached: bool := *;
      if !fails || reached {
        server.holders := map key | key in server.holders && server.holders[key] != this :: server.holders[key];
      }
    }
  }

  class PostgresAdvisoryLockProvider {
    const pollInterval: real
    const server: LockServer

    constructor (pollInterval: real, server: LockServer)
      requires pollInterval > 0.0
      ensures this.pollInterval == pollInterval && this.server == server
    {
      this.pollInterval := pollInterval;
      this.server := server;
    }

    /** One round trip to the server takes time, in which other sessions move. */
    method TryLock(clock: EventLoop, session: Session, key: int) returns (acquired: bool)
      modifies clock, session, server
      ensures session.unlocks == old(session.unlocks) && session.closed == old(session.closed)
      ensures clock.now >= old(clock.now)
      ensures session.answers == old(session.answers) + [acquired]
      ensures session.Has(server, key) <==> acquired
    {
      clock.Elapse(0.0);
      server.OthersMove(session);
      acquired := session.TryLock(server, key);
    }

    /**
     One attempt and, when it fails, the sleep before the next one. It succeeds exactly when the server
     grants the lock. Without a deadline it always goes on after a refusal, one whole poll interval later;
     with one it stops once the deadline has passed and otherwise never asks for a sleep that reaches
     beyond it.
     */
    method Attempt(clock: EventLoop, session: Session, key: int, deadline: Option<real>)
      returns (outcome: Outcome, ghost sleep: Sleep)
      requires pollInterval > 0.0
      modifies clock, session, server
      ensures session.unlocks == old(session.unlocks) && session.closed == old(session.closed)
      ensures clock.now >= old(clock.now)
      ensures session.answers == old(session.answers) + [outcome == Acquired]
      ensures outcome == Acquired <==> session.Has(server, key)
      ensures deadline.None? ==> outcome != TimedOut
      ensures outcome == TimedOut ==> clock.now >= deadline.value
      ensures outcome == Retry ==> clock.now >= old(clock.now) + sleep.length && 0.0 <= sleep.length <= pollInterval
      ensures outcome == Retry && deadline.None? ==> sleep.length == pollInterval
      ensures outcome == Retry && deadline.Some? ==>
                && old(clock.now) < deadline.value
                && (sleep.length == 0.0 || sleep.at + sleep.length <= deadline.value)
                && (clock.now >= deadline.value || sleep.length == pollInterval)
    {
      sleep := Sleep(0.0, 0.0);
      var acquired := TryLock(clock, session, key);
      if acquired {
        return Acquired, sleep;
      }
      if deadline.Some? {
        var checked := clock.Time();
        if checked >= deadline.value {
          return TimedOut, sleep;
        }
      }
      var length := pollInterval;
      ghost var at := clock.now;
      if deadline.Some? {
        var reading := clock.Time();
        at := reading;
        length := Min(pollInterval, Max(0.0, deadline.value - reading));
      }
      sleep := Sleep(at, length);
      clock.Elapse(length);
      server.OthersMove(session);
      return Retry, sleep;
    }

    /**
     Polls until the lock is granted or the deadline has passed: every answer but the last is a refusal,
     and the last one decides. No sleep reaches beyond the deadline, each is at most one poll interval,
     and the attempts are bounded in advance.
     */
    method Acquire(clock: EventLoop, session: Session, key: int, deadline: real)
      returns (acquired: bool, ghost attempts: nat, ghost sleeps: seq<Sleep>)
      requires pollInterval > 0.0
      modifies clock, session, server
      ensures session.unlocks == old(session.unlocks) && session.closed == old(session.closed)
      ensures acquired <==> session.Has(server, key)
      ensures session.answers == old(session.answers) + Refusals(|sleeps|) + [acquired]
      ensures 1 <= attempts <= AttemptBound(deadline - old(clock.now), pollInterval)
      ensures |sleeps| == attempts - 1
      ensures forall s :: s in sleeps ==>
                0.0 <= s.length <= pollInterval && (s.length == 0.0 || s.at + s.length <= deadline)
      ensures !acquired ==> clock.now >= deadline
    {
      ghost var start := clock.now;
      attempts, sleeps := 0, [];
      while true
        invariant clock.now >= start && |sleeps| == attempts
        invariant session.answers == old(session.answers) + Refusals(attempts)
        invariant session.unlocks == old(session.unlocks) && session.closed == old(session.closed)
        invariant attempts > 0 ==> FullSleeps(attempts - 1, pollInterval) < deadline - start
        invariant clock.now >= deadline || clock.now >= start + FullSleeps(attempts, pollInterval)
        invariant forall s :: s in sleeps ==>
                    0.0 <= s.length <= pollInterval && (s.length == 0.0 || s.at + s.length <= deadline)
        decreases AttemptBound(deadline - start, pollInterval) - attempts
      {
        AttemptsFit(attempts, deadline - start, pollInterval);
        var outcome;
        ghost var sleep;
        outcome, sleep := Attempt(clock, session, key, Some(deadline));
        attempts := attempts + 1;
        if outcome != Retry {
          return outcome == Acquired, attempts, sleeps;
        }
        sleeps := sleeps + [sleep];
      }
    }

    /**
     The clean-up of one lock() block: unlock exactly when the lock was taken, always close, let the
     body's own error through, and otherwise report the first clean-up error. The lock outlives the block
     only when closing failed, and unlocking failed or was not tried.
     */
    method CleanUp<E>(session: Session, key: int, lockAcquired: bool, primary: Option<E>, unlock: Option<E>,
                      close: Option<E>)
      returns (raised: Option<E>)
      modifies session, server
      ensures session.closed && session.answers == old(session.answers)
      ensures session.unlocks == old(session.unlocks) + if lockAcquired then 1 else 0
      ensures close.None? || (lockAcquired && unlock.None?) ==> !session.Has(server, key)
      ensures primary.Some? ==> raised == primary
      ensures primary.None? ==> raised == if lockAcquired && unlock.Some? then unlock else close
    {
      var cleanUpError: Option<E> := None;
      if lockAcquired {
        session.Unlock(server, key, unlock.Some?);
        if unlock.Some? {
          cleanUpError := unlock;
        }
      }
      session.Close(server, close.Some?);
      if close.Some? {
        if cleanUpError.None? {
          cleanUpError := close;
        }
      }
      raised := primary;
      if cleanUpError.Some? {
        if primary.None? {
          raised := cleanUpError;
        }
      }
    }

    /**
     Entering lock() with a deadline. The block is entered exactly when the server granted the lock, which
     the session then holds; a timeout never unlocks, closes, and leaves nothing held unless closing fails.
     */
    method Begin<E>(clock: EventLoop, session: Session, key: int, timeout: real, timeoutError: E, close: Option<E>)
      returns (entered: bool, raised: Option<E>)
      requires pollInterval > 0.0 && !session.closed
      modifies clock, session, server
      ensures raised == if entered then None else Some(timeoutError)
      ensures entered ==> session.Has(server, key)
      ensures !entered && close.None? ==> !session.Has(server, key)
      ensures !entered ==> clock.now >= old(clock.now) + timeout
      ensures exists n: nat :: session.answers == old(session.answers) + Refusals(n) + [entered]
      ensures session.unlocks == old(session.unlocks) && session.closed == !entered
    {
      var now := clock.Time();
      ghost var attempts, sleeps;
      entered, attempts, sleeps := Acquire(clock, session, key, now + timeout);
      raised := None;
      if !entered {
        raised := CleanUp(session, key, false, Some(timeoutError), None, close);
      }
    }
  }

  function Refusals(n: nat): (r: seq<bool>)
    ensures |r| == n && forall i :: 0 <= i < n ==> !r[i]
  {
    seq(n, i => false)
  }
}
