/** GCRALimiter (limits/gcra.py): the call itself, with its store of expiring
    keys, its lock and its two failure policies. */
module Limiter {
  import opened Wrappers
  import opened Gcra

  const LOCK_ACQUIRE_TIMEOUT_S: real := 0.05

  datatype Reason = Conforming | RateLimited | LockContended | FailedOpen | FailedClosed

  datatype Decision = Decision(allowed: bool, limit: nat, remaining: int, retryAfter: real, reason: Reason)

  // What the store answers to one SET NX, to the GET and to the SET of one call.
  datatype LockTry = Got | Taken | LockFault
  datatype Read = ReadDone | ReadFault | Malformed
  datatype Write = WriteDone | WriteFault | ReplyLost

  // One call's surroundings: when it began and the local clock after each lock try, the server
  // time TIME reads (or its fault), and the server times at which GET and SET land.
  datatype Calls = Calls(
    tries: nat -> LockTry, began: real, waits: nat -> real,
    timeFault: bool, now: real, readAt: real, read: Read, writeAt: real, write: Write)

  datatype Cell = Cell(tat: real, expiry: real)

  function Deadline(calls: Calls): real {
    calls.began + LOCK_ACQUIRE_TIMEOUT_S
  }

  /** The try at which acquiring ends: the first that is not taken, or the first after
      which the deadline has passed. */
  ghost predicate EndsAt(calls: Calls, k: nat) {
    && (calls.tries(k) == Taken ==> calls.waits(k) >= Deadline(calls))
    && forall j: nat :: j < k ==> calls.tries(j) == Taken && calls.waits(j) < Deadline(calls)
  }

  ghost predicate Acquired(calls: Calls, r: LockTry) {
    exists k :: EndsAt(calls, k) && r == calls.tries(k)
  }

  /** enough is a try by which the deadline has passed: time goes on. */
  method Acquire(calls: Calls, ghost enough: nat) returns (r: LockTry)
    requires calls.waits(enough) >= Deadline(calls)
    ensures Acquired(calls, r)
    ensures exists k: nat ::
      && r == calls.tries(k) && (r == Taken ==> calls.waits(k) >= calls.began + 0.05)
      && forall j: nat :: j < k ==> calls.tries(j) == Taken && calls.waits(j) < calls.began + 0.05
  {
    var i: nat := 0;
    while true
      invariant i <= enough
      invariant forall j: nat :: j < i ==> calls.tries(j) == Taken && calls.waits(j) < Deadline(calls)
      decreases enough - i
    {
      r := calls.tries(i);
      if r != Taken || calls.waits(i) >= Deadline(calls) {
        assert EndsAt(calls, i);
        return;
      }
      i := i + 1;
    }
  }

  class GCRALimiter {
    const rate: nat
    const period: real
    const burst: nat
    const failOpen: bool
    const emissionInterval: real
    const tolerance: real
    var failOpenCount: nat
    var failClosedCount: nat
    var store: map<string, Cell>
    // The arrival times of a limiter whose keys never expire, and the latest server time.
    ghost var ideal: map<string, real>
    ghost var clock: real

    function TheRule(): Rule {
      Rule(emissionInterval, burst, tolerance)
    }

    ghost function Tat(key: string): Option<real>
      reads this
    {
      if key in ideal then Some(ideal[key]) else None
    }

    /** A stored key holds the ideal arrival time and expires well after it; a key
        that is gone has an arrival time the clock has passed. */
    ghost predicate Valid()
      reads this
    {
      && Sound(TheRule())
      && (forall key :: key in store ==>
            key in ideal && store[key].tat == ideal[key] && store[key].expiry > ideal[key] + tolerance + 0.999)
      && (forall key :: key in ideal && key !in store ==> ideal[key] <= clock)
    }

    constructor (rate: nat, period: real, burst: nat, failOpen: bool)
      requires rate > 0 && period > 0.0 && burst >= 1
      ensures Valid() && ideal == map[] && failOpenCount == 0 && failClosedCount == 0
      ensures this.rate == rate && this.burst == burst && this.failOpen == failOpen && this.period == period
      ensures emissionInterval == period / rate as real && tolerance == emissionInterval * (burst - 1) as real
      ensures TheRule().t == period / rate as real
    {
      var t := period / rate as real;
      this.rate, this.period, this.burst, this.failOpen := rate, period, burst, failOpen;
      emissionInterval := t;
      tolerance := t * (burst - 1) as real;
      failOpenCount, failClosedCount := 0, 0;
      store, ideal, clock := map[], map[], 0.0;
      new;
      Positive(period, rate as real);
      TimesIsProduct(burst - 1, t);
    }

    /** A limiter is built exactly for a positive rate and period and a burst of at
        least one. */
    static method Create(rate: int, period: real, burst: int, failOpen: bool) returns (r: Option<GCRALimiter>)
      ensures r.Some? <==> rate > 0 && period > 0.0 && burst >= 1
      ensures r.Some? ==> fresh(r.value) && r.value.Valid() && r.value.ideal == map[]
      ensures r.Some? ==>
        && r.value.rate == rate && r.value.period == period && r.value.burst == burst && r.value.failOpen == failOpen
        && r.value.emissionInterval == period / rate as real
        && r.value.tolerance == r.value.emissionInterval * (burst - 1) as real
        && r.value.failOpenCount == 0 && r.value.failClosedCount == 0
    {
      if rate <= 0 || period <= 0.0 || burst < 1 {
        return None;
      }
      var limiter := new GCRALimiter(rate, period, burst, failOpen);
      return Some(limiter);
    }

    function FaultDecision(): Decision {
      if failOpen then Decision(true, rate, rate, 0.0, FailedOpen)
      else Decision(false, rate, 0, emissionInterval, FailedClosed)
    }

    method Fault() returns (d: Decision)
      requires Valid()
      modifies this`failOpenCount
      ensures d == FaultDecision()
      ensures failOpenCount == old(failOpenCount) + if failOpen then 1 else 0
    {
      if failOpen {
        failOpenCount := failOpenCount + 1;
      }
      d := FaultDecision();
    }

    /** GET: an expired key is gone. */
    method Get(key: string, now: real, readAt: real) returns (tat: Option<real>)
      requires Valid() && clock <= now <= readAt < now + 0.999
      modifies this`store, this`clock
      ensures Valid() && clock == now
      ensures tat.Some? ==> tat == Tat(key) && key in store
      ensures tat.None? ==> Tat(key).None? || Tat(key).value <= now
    {
      TauIsNotNegative(TheRule());
      clock := now;
      if key in store && readAt >= store[key].expiry {
        store := store - {key};
      }
      tat := if key in store then Some(store[key].tat) else None;
    }

    /** SET with the expiry in whole milliseconds. */
    method Put(key: string, now: real, tat: real, writeAt: real)
      requires Valid() && now <= writeAt
      modifies this`store, this`ideal
      ensures Valid()
      ensures ideal == old(ideal)[key := tat]
    {
      ExpiryIsLate(TheRule(), now, tat, writeAt);
      var ms := KeepMs(TheRule(), now, tat);
      store := store[key := Cell(tat, writeAt + ms as real / 1000.0)];
      ideal := ideal[key := tat];
    }

    /** The rule on the arrival time read, and the write. */
    method Apply(key: string, raw: Option<real>, now: real, writeAt: real, write: Write) returns (d: Decision)
      requires Valid() && clock == now <= writeAt
      requires raw.Some? ==> raw == Tat(key)
      requires raw.None? ==> Tat(key).None? || Tat(key).value <= now
      modifies this`store, this`ideal, this`failOpenCount
      ensures Valid()
      ensures Answers(d, write, old(Tat(key)), now) && Tat(key) == Moved(write, old(Tat(key)), now)
      ensures ideal == old(ideal) || (Tat(key).Some? && ideal == old(ideal)[key := Tat(key).value])
      ensures failOpenCount == old(failOpenCount) + if d.reason == FailedOpen then 1 else 0
    {
      ghost var tat := Tat(key);
      if raw.None? && tat.Some? {
        PastActsAbsent(TheRule(), tat.value, now);
      }
      var c := TheRule();
      var base := if raw.Some? then raw.value else now;
      var allowAt := base - tolerance;
      if now < allowAt {
        return Decision(false, rate, 0, allowAt - now, RateLimited);
      }
      var next := Max(now, base) + emissionInterval;
      assert Admits(c, tat, now) && next == NewTat(c, tat, now);
      if write != WriteFault {
        Put(key, now, next, writeAt);
      }
      if write == WriteDone {
        d := Decision(true, rate, Gcra.Remaining(c, now, next), 0.0, Conforming);
      } else {
        d := Fault();
      }
    }

    /** The call once the lock is held: the clock, the key, the rule and the write. */
    method UnderLock(key: string, calls: Calls) returns (d: Decision)
      requires Valid()
      requires clock <= calls.now <= calls.readAt <= calls.writeAt && calls.readAt < calls.now + 0.999
      modifies this
      ensures Valid() && clock <= calls.writeAt
      ensures calls.timeFault || calls.read != ReadDone ==> d == FaultDecision() && ideal == old(ideal)
      ensures !calls.timeFault && calls.read == ReadDone ==>
        Answers(d, calls.write, old(Tat(key)), calls.now) && Tat(key) == Moved(calls.write, old(Tat(key)), calls.now)
      ensures ideal == old(ideal) || (Tat(key).Some? && ideal == old(ideal)[key := Tat(key).value])
      ensures failClosedCount == old(failClosedCount)
      ensures failOpenCount == old(failOpenCount) + if d.reason == FailedOpen then 1 else 0
    {
      if calls.timeFault || calls.read == ReadFault {
        d := Fault();
        return;
      }
      var now := calls.now;
      var raw := Get(key, now, calls.readAt);
      if calls.read == Malformed {
        d := Fault();
        return;
      }
      d := Apply(key, raw, now, calls.writeAt, calls.write);
    }

    /** One call. The answer and the new state are those of the rule on an arrival
        time that never expires, unless the lock is busy (denied, nothing moves) or
        the store fails (the failure policy; the arrival time moves only if the write
        landed and just its reply was lost). */
    method Check(key: string, calls: Calls, ghost enough: nat) returns (d: Decision, ghost lock: LockTry)
      requires Valid()
      requires calls.waits(enough) >= Deadline(calls)
      requires clock <= calls.now <= calls.readAt <= calls.writeAt && calls.readAt < calls.now + 0.999
      modifies this
      ensures Valid() && clock == calls.writeAt
      ensures Acquired(calls, lock)
      ensures lock == Taken ==>
        && d == Decision(false, rate, 0, emissionInterval, LockContended) && ideal == old(ideal)
        && failClosedCount == old(failClosedCount) + 1 && failOpenCount == old(failOpenCount)
      ensures lock != Taken && (lock == LockFault || calls.timeFault || calls.read != ReadDone) ==>
        && d.allowed == failOpen && d.limit == rate && d.remaining == (if failOpen then rate else 0)
        && d.retryAfter == (if failOpen then 0.0 else emissionInterval)
        && d.reason == (if failOpen then FailedOpen else FailedClosed)
        && ideal == old(ideal)
      ensures (lock == Got && !calls.timeFault && calls.read == ReadDone && calls.write != WriteDone
               && Admits(TheRule(), old(Tat(key)), calls.now)) ==>
        && d.allowed == failOpen && d.limit == rate && d.remaining == (if failOpen then rate else 0)
        && d.retryAfter == (if failOpen then 0.0 else emissionInterval)
        && d.reason == (if failOpen then FailedOpen else FailedClosed)
      ensures lock == Got && !calls.timeFault && calls.read == ReadDone && calls.write == WriteDone ==>
        && (d.allowed <==> Admits(TheRule(), old(Tat(key)), calls.now))
        && (d.allowed <==> d.reason == Conforming) && (!d.allowed <==> d.reason == RateLimited)
        && d.limit == rate && (d.allowed ==> d.retryAfter == 0.0) && (!d.allowed ==> d.remaining == 0 && d.retryAfter > 0.0)
      ensures lock == Got && !calls.timeFault && calls.read == ReadDone ==>
        Answers(d, calls.write, old(Tat(key)), calls.now) && Tat(key) == Moved(calls.write, old(Tat(key)), calls.now)
      ensures forall other :: other != key ==> Tat(other) == old(Tat(other))
      ensures lock != Taken ==>
        && failClosedCount == old(failClosedCount)
        && failOpenCount == old(failOpenCount) + if d.reason == FailedOpen then 1 else 0
    {
      var got := Acquire(calls, enough);
      lock := got;
      if got == Taken {
        failClosedCount := failClosedCount + 1;
        clock := calls.writeAt;
        return Decision(false, rate, 0, emissionInterval, LockContended), lock;
      }
      if got == LockFault {
        d := Fault();
      } else {
        d := UnderLock(key, calls);
      }
      clock := calls.writeAt;
    }

    ghost predicate Answers(d: Decision, write: Write, tat: Option<real>, now: real)
      requires Sound(TheRule())
    {
      var c := TheRule();
      if !Admits(c, tat, now) then d == Decision(false, rate, 0, RetryAfter(c, tat, now), RateLimited)
      else if write == WriteDone then
        d == Decision(true, rate, Gcra.Remaining(c, now, NewTat(c, tat, now)), 0.0, Conforming)
      else d == FaultDecision()
    }

    ghost function Moved(write: Write, tat: Option<real>, now: real): Option<real> {
      if write == WriteFault then tat else After(TheRule(), tat, now)
    }

    method Reset(key: string)
      requires Valid()
      modifies this
      ensures Valid() && ideal == old(ideal) - {key} && clock == old(clock)
      ensures failOpenCount == old(failOpenCount) && failClosedCount == old(failClosedCount)
    {
      store := store - {key};
      ideal := ideal - {key};
    }
  }

  lemma {:induction false} Positive(x: real, y: real)
    requires x > 0.0 && y > 0.0
    ensures x / y > 0.0
  {
    var q := x / y;
    assert q * y == x;
    if q <= 0.0 {
      TimesNonPositive(q, y);
    }
  }

  lemma {:induction false} TimesNonPositive(q: real, y: real)
    requires q <= 0.0 && y > 0.0
    ensures q * y <= 0.0
  {
  }
}
