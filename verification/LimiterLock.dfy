/** Many callers of GCRALimiter.check on one key, as interleaved steps on the
    store: the expiring token lock, the clock, the read and the write
    (limits/gcra.py). */
module LimiterLock {
  import opened Wrappers
  import opened Gcra

  const LOCK_TTL: real := 0.5

  datatype Lock = Lock(token: nat, expiry: real)

  datatype Cell = Cell(tat: real, expiry: real)

  // Where a caller stands; since is when it took the lock, and seen, a record kept for
  // the proofs, how many decisions there were when it read the clock.
  datatype Pc =
    | Idle
    | Held(token: nat, since: real)
    | Timed(token: nat, since: real, now: real, seen: nat)
    | Writing(token: nat, since: real, now: real, seen: nat, raw: Option<real>)
    | Leaving(token: nat, since: real)

  // A decision the rule made, with the numbers it reports.
  datatype Entry = Entry(now: real, admitted: bool, remaining: int, retryAfter: real)

  datatype State = State(
    clock: real, lock: Option<Lock>, cell: Option<Cell>, callers: seq<Pc>, tokens: nat, log: seq<Entry>)

  function Start(n: nat): State {
    State(0.0, None, None, seq(n, (i: int) => Idle), 0, [])
  }

  // ReplyLost is a write that lands although its caller sees an error.
  datatype Step =
    | Tick(to: real)
    | Acquire(w: nat) | Refused(w: nat)
    | Time(w: nat) | Load(w: nat) | Store(w: nat) | ReplyLost(w: nat)
    | Fault(w: nat) | Crash(w: nat)
    | Release(w: nat) | ReleaseFails(w: nat)

  predicate Busy(s: State) {
    s.lock.Some? && s.clock < s.lock.value.expiry
  }

  predicate Can(step: Step, s: State) {
    if step.Tick? then step.to >= s.clock
    else
      && step.w < |s.callers|
      && var pc := s.callers[step.w];
      match step
      case Acquire(_) => pc.Idle? && !Busy(s)
      case Refused(_) => pc.Idle? && Busy(s)
      case Time(_) => pc.Held?
      case Load(_) => pc.Timed?
      case Store(_) | ReplyLost(_) => pc.Writing?
      case Fault(_) => pc.Held? || pc.Timed? || pc.Writing?
      case Crash(_) => true
      case Release(_) | ReleaseFails(_) => pc.Leaving?
      case Tick(_) => false
  }

  function Read(s: State): Option<real> {
    if s.cell.Some? && s.clock < s.cell.value.expiry then Some(s.cell.value.tat) else None
  }

  function Admit(c: Rule, tat: Option<real>, now: real): Entry
    requires Sound(c)
  {
    Entry(now, true, Remaining(c, now, NewTat(c, tat, now)), 0.0)
  }

  function Deny(c: Rule, tat: Option<real>, now: real): Entry {
    Entry(now, false, 0, RetryAfter(c, tat, now))
  }

  function Apply(c: Rule, step: Step, s: State): State
    requires Sound(c) && Can(step, s)
  {
    match step
    case Tick(to) => s.(clock := to)
    case Acquire(w) =>
      s.(lock := Some(Lock(s.tokens, s.clock + LOCK_TTL)), tokens := s.tokens + 1,
         callers := s.callers[w := Held(s.tokens, s.clock)])
    case Refused(w) => s
    case Time(w) =>
      var pc := s.callers[w];
      s.(callers := s.callers[w := Timed(pc.token, pc.since, s.clock, |s.log|)])
    case Load(w) =>
      var pc := s.callers[w];
      var raw := Read(s);
      if Admits(c, raw, pc.now) then s.(callers := s.callers[w := Writing(pc.token, pc.since, pc.now, pc.seen, raw)])
      else s.(callers := s.callers[w := Leaving(pc.token, pc.since)], log := s.log + [Deny(c, raw, pc.now)])
    case Store(w) => Written(c, s, w)
    case ReplyLost(w) => Written(c, s, w)
    case Fault(w) => s.(callers := s.callers[w := Leaving(s.callers[w].token, s.callers[w].since)])
    case Crash(w) => s.(callers := s.callers[w := Idle])
    case Release(w) =>
      var mine := s.lock.Some? && s.lock.value.token == s.callers[w].token;
      s.(lock := if mine then None else s.lock, callers := s.callers[w := Idle])
    case ReleaseFails(w) => s.(callers := s.callers[w := Idle])
  }

  function Written(c: Rule, s: State, w: nat): State
    requires Sound(c) && w < |s.callers| && s.callers[w].Writing?
  {
    var pc := s.callers[w];
    var next := NewTat(c, pc.raw, pc.now);
    s.(cell := Some(Cell(next, s.clock + KeepMs(c, pc.now, next) as real / 1000.0)),
       callers := s.callers[w := Leaving(pc.token, pc.since)],
       log := s.log + [Admit(c, pc.raw, pc.now)])
  }

  ghost predicate Next(c: Rule, states: seq<State>, steps: seq<Step>, i: nat)
    requires Sound(c) && i < |steps| && |states| == |steps| + 1
  {
    Can(steps[i], states[i]) && states[i + 1] == Apply(c, steps[i], states[i])
  }

  ghost predicate Run(c: Rule, n: nat, states: seq<State>, steps: seq<Step>)
    requires Sound(c)
  {
    && |states| == |steps| + 1
    && states[0] == Start(n)
    && forall i {:trigger Next(c, states, steps, i)} :: 0 <= i < |steps| ==> Next(c, states, steps, i)
  }

  // ---------------------------------------------------- in every run --

  predicate Holds(pc: Pc) {
    !pc.Idle?
  }

  /** The caller took the lock less than its time to live ago. */
  predicate InTime(pc: Pc, clock: real) {
    Holds(pc) && clock < pc.since + LOCK_TTL
  }

  ghost predicate CallerInv(s: State, w: nat)
    requires w < |s.callers|
  {
    var pc := s.callers[w];
    && (Holds(pc) ==> pc.token < s.tokens && pc.since <= s.clock)
    && (InTime(pc, s.clock) ==> s.lock == Some(Lock(pc.token, pc.since + LOCK_TTL)))
    && (pc.Timed? || pc.Writing? ==> pc.since <= pc.now <= s.clock)
  }

  ghost predicate TokensDiffer(s: State, w: nat, v: nat)
    requires w < |s.callers| && v < |s.callers|
  {
    w != v && Holds(s.callers[w]) && Holds(s.callers[v]) ==> s.callers[w].token != s.callers[v].token
  }

  ghost predicate LockInv(s: State) {
    && (forall w: nat {:trigger CallerInv(s, w)} :: w < |s.callers| ==> CallerInv(s, w))
    && (forall w: nat, v: nat {:trigger TokensDiffer(s, w, v)} :: w < |s.callers| && v < |s.callers| ==> TokensDiffer(s, w, v))
  }

  lemma {:induction false} CallerStep(c: Rule, step: Step, s: State, v: nat)
    requires Sound(c) && Can(step, s) && LockInv(s) && v < |s.callers|
    ensures CallerInv(Apply(c, step, s), v)
  {
    assert CallerInv(s, v);
    if !step.Tick? {
      assert CallerInv(s, step.w);
      assert TokensDiffer(s, step.w, v);
    }
  }

  lemma {:induction false} TokensStep(c: Rule, step: Step, s: State, v: nat, u: nat)
    requires Sound(c) && Can(step, s) && LockInv(s) && v < |s.callers| && u < |s.callers|
    ensures TokensDiffer(Apply(c, step, s), v, u)
  {
    assert TokensDiffer(s, v, u);
    assert CallerInv(s, v) && CallerInv(s, u);
  }

  lemma {:induction false} LockInvStep(c: Rule, step: Step, s: State)
    requires Sound(c) && Can(step, s) && LockInv(s)
    ensures LockInv(Apply(c, step, s))
  {
    var after := Apply(c, step, s);
    forall v: nat | v < |after.callers| ensures CallerInv(after, v) {
      CallerStep(c, step, s, v);
    }
    forall v: nat, u: nat | v < |after.callers| && u < |after.callers| ensures TokensDiffer(after, v, u) {
      TokensStep(c, step, s, v, u);
    }
  }

  lemma {:induction false} RunKeepsLockInv(c: Rule, n: nat, states: seq<State>, steps: seq<Step>, i: nat)
    requires Sound(c) && Run(c, n, states, steps) && i < |states|
    ensures LockInv(states[i])
  {
    if i == 0 {
      forall w: nat | w < n ensures CallerInv(states[0], w) {
      }
      forall w: nat, v: nat | w < n && v < n ensures TokensDiffer(states[0], w, v) {
      }
    } else {
      RunKeepsLockInv(c, n, states, steps, i - 1);
      assert Next(c, states, steps, i - 1);
      LockInvStep(c, steps[i - 1], states[i - 1]);
    }
  }

  /** In every run, slow holders included: a caller within the lock's time to live
      still holds it under its own token, so no two such callers exist. */
  lemma {:induction false} UnexpiredHoldersExclude(
      c: Rule, n: nat, states: seq<State>, steps: seq<Step>, i: nat, w: nat, v: nat)
    requires Sound(c) && Run(c, n, states, steps) && i < |states|
    requires w < |states[i].callers| && v < |states[i].callers|
    requires InTime(states[i].callers[w], states[i].clock)
    ensures states[i].lock == Some(Lock(states[i].callers[w].token, states[i].callers[w].since + LOCK_TTL))
    ensures v != w ==> !InTime(states[i].callers[v], states[i].clock)
  {
    RunKeepsLockInv(c, n, states, steps, i);
    assert CallerInv(states[i], w) && CallerInv(states[i], v);
    assert TokensDiffer(states[i], w, v);
  }

  /** In every run, slow holders included: a release takes away no lock but the
      releasing caller's own. */
  lemma {:induction false} ReleaseIsOwnerOnly(
      c: Rule, n: nat, states: seq<State>, steps: seq<Step>, i: nat, v: nat)
    requires Sound(c) && Run(c, n, states, steps) && i < |steps|
    requires steps[i].Release? && v < |states[i].callers| && v != steps[i].w
    requires states[i].lock.Some? && Holds(states[i].callers[v])
    requires states[i].lock.value.token == states[i].callers[v].token
    ensures states[i + 1].lock == states[i].lock
    ensures v < |states[i + 1].callers| && states[i + 1].callers[v] == states[i].callers[v]
  {
    RunKeepsLockInv(c, n, states, steps, i);
    assert Next(c, states, steps, i);
    assert TokensDiffer(states[i], v, steps[i].w);
  }

  // ----------------------------------- in runs where nobody is disturbed --

  /** Between a caller's reading of the clock and its own decision nobody else decided,
      and it read the arrival time within 0.999 s of the clock, lock or no lock. */
  predicate Undisturbed(step: Step, s: State)
    requires Can(step, s)
  {
    && (step.Load? ==> s.callers[step.w].seen == |s.log| && s.clock < s.callers[step.w].now + 0.999)
    && (step.Store? || step.ReplyLost? ==> s.callers[step.w].seen == |s.log|)
  }

  ghost predicate UndisturbedRun(c: Rule, states: seq<State>, steps: seq<Step>)
    requires Sound(c) && |states| == |steps| + 1
  {
    forall i {:trigger Next(c, states, steps, i)} ::
      0 <= i < |steps| && Next(c, states, steps, i) ==> Undisturbed(steps[i], states[i])
  }

  function Nows(log: seq<Entry>): (r: seq<real>)
    ensures |r| == |log| && forall i :: 0 <= i < |log| ==> r[i] == log[i].now
  {
    seq(|log|, (i: int) requires 0 <= i < |log| => log[i].now)
  }

  /** The arrival time of a limiter that never expires keys, after the decisions so far. */
  function Ideal(c: Rule, log: seq<Entry>): Option<real> {
    TatAfter(c, None, Nows(log))
  }

  function Answer(c: Rule, tat: Option<real>, now: real): Entry
    requires Sound(c)
  {
    if Admits(c, tat, now) then Admit(c, tat, now) else Deny(c, tat, now)
  }

  /** The decisions are those of one caller after another on a limiter that never
      expires keys, at times that never step back. */
  ghost predicate Sequential(c: Rule, log: seq<Entry>)
    requires Sound(c)
  {
    && (forall k {:trigger log[k]} :: 0 <= k < |log| ==> log[k] == Answer(c, Ideal(c, log[..k]), log[k].now))
    && (forall k, l :: 0 <= k < l < |log| ==> log[k].now <= log[l].now)
  }

  ghost predicate CellInv(c: Rule, s: State) {
    match s.cell
    case None => Ideal(c, s.log) == None
    case Some(cell) => Ideal(c, s.log) == Some(cell.tat) && cell.expiry > cell.tat + c.tau + 0.999
  }

  /** What an undisturbed caller is about to write is what the rule says now. */
  ghost predicate PendingInv(c: Rule, s: State, w: nat)
    requires w < |s.callers|
  {
    var pc := s.callers[w];
    pc.Timed? || pc.Writing? ==>
      && pc.seen <= |s.log|
      && (pc.seen == |s.log| ==>
          && (forall k :: 0 <= k < |s.log| ==> s.log[k].now <= pc.now)
          && (pc.Writing? ==> Agree(c, pc.raw, Ideal(c, s.log), pc.now) && Admits(c, pc.raw, pc.now)))
  }

  /** Two arrival times the rule does not tell apart at this time. */
  ghost predicate Agree(c: Rule, tat: Option<real>, other: Option<real>, now: real) {
    && (Admits(c, tat, now) <==> Admits(c, other, now))
    && (Admits(c, tat, now) ==> NewTat(c, tat, now) == NewTat(c, other, now))
    && (!Admits(c, tat, now) ==> tat == other)
  }

  ghost predicate RuleInv(c: Rule, s: State)
    requires Sound(c)
  {
    && Sequential(c, s.log)
    && (forall k :: 0 <= k < |s.log| ==> s.log[k].now <= s.clock)
    && CellInv(c, s)
    && forall w: nat {:trigger PendingInv(c, s, w)} :: w < |s.callers| ==> PendingInv(c, s, w)
  }

  lemma {:induction false} IdealStep(c: Rule, log: seq<Entry>, e: Entry)
    ensures Ideal(c, log + [e]) == After(c, Ideal(c, log), e.now)
  {
    assert Nows(log + [e])[..|log|] == Nows(log);
  }

  /** A prompt reading agrees with the ideal: if the key has expired, the margin of a
      second covers the wait between clock and reading. */
  lemma {:induction false} ReadingAgrees(c: Rule, s: State, w: nat)
    requires Sound(c) && CellInv(c, s)
    requires w < |s.callers| && s.callers[w].Timed? && s.clock < s.callers[w].now + 0.999
    ensures Agree(c, Read(s), Ideal(c, s.log), s.callers[w].now)
  {
    TauIsNotNegative(c);
    if s.cell.Some? && s.clock >= s.cell.value.expiry {
      PastActsAbsent(c, s.cell.value.tat, s.callers[w].now);
    }
  }

  lemma {:induction false} SequentialStep(c: Rule, log: seq<Entry>, e: Entry)
    requires Sound(c) && Sequential(c, log)
    requires e == Answer(c, Ideal(c, log), e.now)
    requires forall k :: 0 <= k < |log| ==> log[k].now <= e.now
    ensures Sequential(c, log + [e])
  {
    var more := log + [e];
    forall k | 0 <= k < |more| ensures more[k] == Answer(c, Ideal(c, more[..k]), more[k].now) {
      assert more[..k] == log[..k];
      assert k == |log| ==> log[..k] == log;
    }
  }

  /** A decision of an undisturbed caller keeps the log sequential, and disturbs every
      other caller between its clock and its decision. */
  lemma {:induction false} DecisionStep(c: Rule, s: State, w: nat, e: Entry, after: State)
    requires Sound(c) && LockInv(s) && RuleInv(c, s)
    requires w < |s.callers| && (s.callers[w].Timed? || s.callers[w].Writing?) && s.callers[w].seen == |s.log|
    requires e.now == s.callers[w].now && e == Answer(c, Ideal(c, s.log), e.now)
    requires after.log == s.log + [e] && after.clock == s.clock
    requires after.callers == s.callers[w := Leaving(s.callers[w].token, s.callers[w].since)]
    requires CellInv(c, after)
    ensures RuleInv(c, after)
  {
    assert CallerInv(s, w) && PendingInv(c, s, w);
    SequentialStep(c, s.log, e);
    forall v: nat | v < |after.callers| ensures PendingInv(c, after, v) {
      if v != w {
        assert PendingInv(c, s, v);
      }
    }
  }

  lemma {:induction false} LoadStep(c: Rule, s: State, w: nat)
    requires Sound(c) && LockInv(s) && RuleInv(c, s)
    requires Can(Load(w), s) && Undisturbed(Load(w), s)
    ensures RuleInv(c, Apply(c, Load(w), s))
  {
    ReadingAgrees(c, s, w);
    assert PendingInv(c, s, w);
    var pc, raw, after := s.callers[w], Read(s), Apply(c, Load(w), s);
    if Admits(c, raw, pc.now) {
      forall v: nat | v < |after.callers| ensures PendingInv(c, after, v) {
        assert PendingInv(c, s, v);
      }
    } else {
      IdealStep(c, s.log, Deny(c, raw, pc.now));
      DecisionStep(c, s, w, Deny(c, raw, pc.now), after);
    }
  }

  lemma {:induction false} StoreStep(c: Rule, s: State, w: nat)
    requires Sound(c) && LockInv(s) && RuleInv(c, s)
    requires w < |s.callers| && s.callers[w].Writing? && s.callers[w].seen == |s.log|
    ensures RuleInv(c, Written(c, s, w))
  {
    assert CallerInv(s, w) && PendingInv(c, s, w);
    var pc, after := s.callers[w], Written(c, s, w);
    var e := Admit(c, pc.raw, pc.now);
    IdealStep(c, s.log, e);
    ExpiryIsLate(c, pc.now, NewTat(c, pc.raw, pc.now), s.clock);
    DecisionStep(c, s, w, e, after);
  }

  predicate Quiet(step: Step) {
    !step.Load? && !step.Store? && !step.ReplyLost?
  }

  lemma {:induction false} QuietKeeps(c: Rule, step: Step, s: State)
    requires Sound(c) && Can(step, s) && Quiet(step)
    ensures var after := Apply(c, step, s);
      after.log == s.log && after.cell == s.cell && after.clock >= s.clock && |after.callers| == |s.callers|
    ensures forall v :: 0 <= v < |s.callers| ==> QuietPc(s.callers[v], Apply(c, step, s).callers[v], s.clock, |s.log|)
  {
  }

  /** What a quiet step may make of a caller. */
  predicate QuietPc(pc: Pc, after: Pc, clock: real, decided: nat) {
    || after == pc
    || after.Idle? || after.Held? || after.Leaving?
    || (after.Timed? && after.now == clock && after.seen == decided)
  }

  /** The steps that decide nothing. */
  lemma {:induction false} QuietStep(c: Rule, s: State, after: State)
    requires Sound(c) && RuleInv(c, s)
    requires after.log == s.log && after.cell == s.cell && after.clock >= s.clock && |after.callers| == |s.callers|
    requires forall v :: 0 <= v < |s.callers| ==> QuietPc(s.callers[v], after.callers[v], s.clock, |s.log|)
    ensures RuleInv(c, after)
  {
    forall v: nat | v < |after.callers| ensures PendingInv(c, after, v) {
      assert PendingInv(c, s, v);
    }
  }

  lemma {:induction false} StartRuleInv(c: Rule, n: nat)
    requires Sound(c)
    ensures RuleInv(c, Start(n))
  {
    forall w: nat | w < n ensures PendingInv(c, Start(n), w) {
    }
  }

  lemma {:induction false} RuleStep(c: Rule, step: Step, s: State)
    requires Sound(c) && Can(step, s) && LockInv(s) && RuleInv(c, s) && Undisturbed(step, s)
    ensures RuleInv(c, Apply(c, step, s))
  {
    hide RuleInv, LockInv;
    if step.Load? {
      LoadStep(c, s, step.w);
    } else if step.Store? || step.ReplyLost? {
      StoreStep(c, s, step.w);
    } else {
      hide Apply, Can;
      QuietKeeps(c, step, s);
      QuietStep(c, s, Apply(c, step, s));
    }
  }

  lemma {:induction false} RunKeepsRuleInv(c: Rule, n: nat, states: seq<State>, steps: seq<Step>, i: nat)
    requires Sound(c) && Run(c, n, states, steps) && i < |states|
    requires UndisturbedRun(c, states, steps)
    ensures RuleInv(c, states[i])
  {
    hide RuleInv, LockInv, Can, Apply, Undisturbed, Sound;
    if i == 0 {
      StartRuleInv(c, n);
    } else {
      RunKeepsRuleInv(c, n, states, steps, i - 1);
      RunKeepsLockInv(c, n, states, steps, i - 1);
      assert Next(c, states, steps, i - 1);
      RuleStep(c, steps[i - 1], states[i - 1]);
    }
  }

  /** However many callers interleave, crash or fail, and whoever holds the lock: if
      nobody is disturbed, the decisions are those of one sequential run of the rule on
      a key that never expires. A slow holder does harm only by deciding after another
      caller has decided since it read the clock, or by reading an expired key late. */
  lemma {:induction false} UndisturbedIsSequential(c: Rule, n: nat, states: seq<State>, steps: seq<Step>)
    requires Sound(c) && Run(c, n, states, steps) && UndisturbedRun(c, states, steps)
    ensures Sequential(c, states[|steps|].log)
  {
    RunKeepsRuleInv(c, n, states, steps, |steps|);
  }

  // -------------------------------------- exactly when a run is in order --

  function Stored(s: State): Option<real> {
    if s.cell.Some? then Some(s.cell.value.tat) else None
  }

  /** Decisions and stored arrival time are those of one sequential run on a key that
      never expires. */
  ghost predicate InOrder(c: Rule, s: State)
    requires Sound(c)
  {
    Sequential(c, s.log) && Ideal(c, s.log) == Stored(s)
  }

  /** An arrival time as a caller with this clock sees it: one it has passed is as good
      as none. */
  function SeenAt(tat: Option<real>, now: real): real {
    if tat.Some? && tat.value > now then tat.value else now
  }

  predicate Decides(c: Rule, step: Step, s: State)
    requires Can(step, s)
  {
    step.Store? || step.ReplyLost? || (step.Load? && !Admits(c, Read(s), s.callers[step.w].now))
  }

  /** The deciding caller has not been overtaken: nobody has decided at a later clock,
      and what it is about to overwrite is, as its clock sees it, what it read. */
  ghost predicate NotOvertaken(c: Rule, step: Step, s: State)
    requires Can(step, s)
  {
    Decides(c, step, s) ==>
      var pc := s.callers[step.w];
      && (forall k :: 0 <= k < |s.log| ==> s.log[k].now <= pc.now)
      && (!step.Load? ==> SeenAt(pc.raw, pc.now) == SeenAt(Stored(s), pc.now))
  }

  /** In every run a caller about to write was admitted on what it read. */
  ghost predicate WritesAdmitted(c: Rule, s: State) {
    forall w :: 0 <= w < |s.callers| && s.callers[w].Writing? ==> Admits(c, s.callers[w].raw, s.callers[w].now)
  }

  lemma {:induction false} WritesAdmittedStep(c: Rule, step: Step, s: State)
    requires Sound(c) && Can(step, s) && WritesAdmitted(c, s)
    ensures WritesAdmitted(c, Apply(c, step, s))
  {
    hide Admits, NewTat;
  }

  /** Two arrival times that look alike at a caller's clock get it the same decision,
      and an admission stores the same only for such two. */
  lemma {:induction false} AlikeDecides(c: Rule, tat: Option<real>, other: Option<real>, now: real)
    requires Sound(c)
    ensures NewTat(c, tat, now) == NewTat(c, other, now) <==> SeenAt(tat, now) == SeenAt(other, now)
    ensures SeenAt(tat, now) == SeenAt(other, now) ==> (Admits(c, tat, now) <==> Admits(c, other, now))
  {
    TauIsNotNegative(c);
  }

  lemma {:induction false} LastSequential(c: Rule, log: seq<Entry>, e: Entry)
    requires Sound(c) && Sequential(c, log)
    ensures Sequential(c, log + [e]) <==>
      e == Answer(c, Ideal(c, log), e.now) && forall k :: 0 <= k < |log| ==> log[k].now <= e.now
  {
    var more := log + [e];
    if Sequential(c, more) {
      assert more[..|log|] == log && more[|log|] == e;
      forall k | 0 <= k < |log| ensures log[k].now <= e.now {
        assert more[k] == log[k];
      }
    } else if e == Answer(c, Ideal(c, log), e.now) && forall k :: 0 <= k < |log| ==> log[k].now <= e.now {
      SequentialStep(c, log, e);
    }
  }

  lemma {:induction false} StoreInOrder(c: Rule, s: State, w: nat)
    requires Sound(c) && InOrder(c, s) && w < |s.callers| && s.callers[w].Writing?
    requires Admits(c, s.callers[w].raw, s.callers[w].now)
    ensures InOrder(c, Written(c, s, w)) <==>
      && (forall k :: 0 <= k < |s.log| ==> s.log[k].now <= s.callers[w].now)
      && SeenAt(s.callers[w].raw, s.callers[w].now) == SeenAt(Stored(s), s.callers[w].now)
  {
    hide Sequential, Ideal, NewTat, Admits, Remaining, SeenAt, KeepMs;
    var pc := s.callers[w];
    var e := Admit(c, pc.raw, pc.now);
    AlikeDecides(c, pc.raw, Stored(s), pc.now);
    LastSequential(c, s.log, e);
    IdealStep(c, s.log, e);
  }

  lemma {:induction false} DenialInOrder(c: Rule, s: State, w: nat)
    requires Sound(c) && InOrder(c, s) && Can(Load(w), s) && Decides(c, Load(w), s)
    ensures InOrder(c, Apply(c, Load(w), s)) <==>
      forall k :: 0 <= k < |s.log| ==> s.log[k].now <= s.callers[w].now
  {
    hide Sequential, Ideal, NewTat, RetryAfter;
    var raw, now := Read(s), s.callers[w].now;
    NoneAdmits(c, now);
    assert raw == Stored(s);
    LastSequential(c, s.log, Deny(c, raw, now));
    IdealStep(c, s.log, Deny(c, raw, now));
  }

  lemma {:induction false} NoneAdmits(c: Rule, now: real)
    requires Sound(c)
    ensures Admits(c, None, now)
  {
    TauIsNotNegative(c);
  }

  lemma {:induction false} UndecidedInOrder(c: Rule, step: Step, s: State)
    requires Sound(c) && Can(step, s) && !Decides(c, step, s)
    ensures InOrder(c, Apply(c, step, s)) <==> InOrder(c, s)
  {
    hide Sequential, Ideal, Admits;
  }

  /** One step keeps the run in order if and only if it overtakes nobody. */
  lemma {:induction false} StepInOrder(c: Rule, step: Step, s: State)
    requires Sound(c) && Can(step, s) && InOrder(c, s) && WritesAdmitted(c, s)
    ensures InOrder(c, Apply(c, step, s)) <==> NotOvertaken(c, step, s)
  {
    hide InOrder, SeenAt, Admits, Written;
    if !Decides(c, step, s) {
      UndecidedInOrder(c, step, s);
    } else if step.Load? {
      DenialInOrder(c, s, step.w);
    } else {
      StoreInOrder(c, s, step.w);
    }
  }

  /** Nobody is overtaken in the first n steps. */
  ghost predicate NobodyOvertaken(c: Rule, states: seq<State>, steps: seq<Step>, n: nat)
    requires Sound(c) && |states| == |steps| + 1 && n <= |steps|
  {
    forall i {:trigger Next(c, states, steps, i)} ::
      0 <= i < n && Next(c, states, steps, i) ==> NotOvertaken(c, steps[i], states[i])
  }

  ghost predicate AlwaysInOrder(c: Rule, states: seq<State>, n: nat)
    requires Sound(c) && n < |states|
  {
    forall i {:trigger InOrder(c, states[i])} :: 0 <= i <= n ==> InOrder(c, states[i])
  }

  lemma {:induction false} RunWritesAdmitted(c: Rule, n: nat, states: seq<State>, steps: seq<Step>, i: nat)
    requires Sound(c) && Run(c, n, states, steps) && i < |states|
    ensures WritesAdmitted(c, states[i])
  {
    if i > 0 {
      RunWritesAdmitted(c, n, states, steps, i - 1);
      assert Next(c, states, steps, i - 1);
      WritesAdmittedStep(c, steps[i - 1], states[i - 1]);
    }
  }

  lemma {:induction false} InOrderLast(c: Rule, states: seq<State>, i: nat)
    requires Sound(c) && 0 < i < |states|
    ensures AlwaysInOrder(c, states, i) <==> AlwaysInOrder(c, states, i - 1) && InOrder(c, states[i])
    ensures AlwaysInOrder(c, states, i - 1) ==> InOrder(c, states[i - 1])
  {
    hide InOrder;
  }

  lemma {:induction false} OvertakenLast(c: Rule, states: seq<State>, steps: seq<Step>, i: nat)
    requires Sound(c) && |states| == |steps| + 1 && 0 < i <= |steps| && Next(c, states, steps, i - 1)
    ensures NobodyOvertaken(c, states, steps, i) <==>
      NobodyOvertaken(c, states, steps, i - 1) && NotOvertaken(c, steps[i - 1], states[i - 1])
  {
    hide NotOvertaken, Apply;
  }

  lemma {:induction false} NextInOrder(c: Rule, n: nat, states: seq<State>, steps: seq<Step>, i: nat)
    requires Sound(c) && Run(c, n, states, steps) && i < |steps| && InOrder(c, states[i])
    ensures Next(c, states, steps, i)
    ensures InOrder(c, states[i + 1]) <==> NotOvertaken(c, steps[i], states[i])
  {
    hide InOrder, NotOvertaken, WritesAdmitted, Apply;
    RunWritesAdmitted(c, n, states, steps, i);
    assert Next(c, states, steps, i);
    StepInOrder(c, steps[i], states[i]);
  }

  lemma {:induction false} RunNext(c: Rule, n: nat, states: seq<State>, steps: seq<Step>, i: nat)
    requires Sound(c) && Run(c, n, states, steps) && i < |steps|
    ensures Next(c, states, steps, i)
  {
  }

  lemma {:induction false} NoneInOrder(c: Rule, n: nat, states: seq<State>, steps: seq<Step>)
    requires Sound(c) && Run(c, n, states, steps)
    ensures |states| == |steps| + 1 && AlwaysInOrder(c, states, 0) && NobodyOvertaken(c, states, steps, 0)
  {
    hide InOrder, NotOvertaken;
    StartInOrder(c, n);
  }

  lemma {:induction false} RunIsTrace(c: Rule, n: nat, states: seq<State>, steps: seq<Step>)
    requires Sound(c) && Run(c, n, states, steps)
    ensures |states| == |steps| + 1
  {
  }

  lemma {:induction false} InOrderTo(c: Rule, n: nat, states: seq<State>, steps: seq<Step>, i: nat)
    requires Sound(c) && Run(c, n, states, steps) && i <= |steps|
    ensures AlwaysInOrder(c, states, i) <==> NobodyOvertaken(c, states, steps, i)
  {
    hide *;
    if i == 0 {
      NoneInOrder(c, n, states, steps);
    } else {
      RunIsTrace(c, n, states, steps);
      InOrderTo(c, n, states, steps, i - 1);
      RunNext(c, n, states, steps, i - 1);
      InOrderLast(c, states, i);
      OvertakenLast(c, states, steps, i);
      if InOrder(c, states[i - 1]) {
        NextInOrder(c, n, states, steps, i - 1);
      }
    }
  }

  lemma {:induction false} StartInOrder(c: Rule, n: nat)
    requires Sound(c)
    ensures InOrder(c, Start(n))
  {
  }

  /** The exact condition, for every run, slow holders, faults and crashes included:
      the decisions and the stored arrival time are at every moment those of one
      sequential run if and only if no deciding caller was overtaken, by a decision at
      a later clock or by an arrival time moved past its own clock since it read. */
  lemma {:induction false} InOrderIffNotOvertaken(c: Rule, n: nat, states: seq<State>, steps: seq<Step>)
    requires Sound(c) && Run(c, n, states, steps)
    ensures AlwaysInOrder(c, states, |steps|) <==> NobodyOvertaken(c, states, steps, |steps|)
  {
    InOrderTo(c, n, states, steps, |steps|);
  }

  /** Undisturbed callers are not overtaken. */
  lemma {:induction false} UndisturbedNotOvertaken(c: Rule, n: nat, states: seq<State>, steps: seq<Step>)
    requires Sound(c) && Run(c, n, states, steps) && UndisturbedRun(c, states, steps)
    ensures NobodyOvertaken(c, states, steps, |steps|)
  {
    hide NobodyOvertaken, UndisturbedRun;
    forall i | 0 <= i <= |steps| ensures InOrder(c, states[i]) {
      RunKeepsRuleInv(c, n, states, steps, i);
    }
    InOrderIffNotOvertaken(c, n, states, steps);
  }

  // -------------------------------------- in runs with timely holders --

  /** The caller that reads or writes the arrival time still has its lock's time. */
  predicate Timely(step: Step, s: State)
    requires Can(step, s)
  {
    step.Load? || step.Store? || step.ReplyLost? ==> InTime(s.callers[step.w], s.clock)
  }

  /** No holder outlives its lock between taking it and its last store call. */
  ghost predicate TimelyRun(c: Rule, states: seq<State>, steps: seq<Step>)
    requires Sound(c) && |states| == |steps| + 1
  {
    forall i {:trigger Next(c, states, steps, i)} ::
      0 <= i < |steps| && Next(c, states, steps, i) ==> Timely(steps[i], states[i])
  }

  lemma {:induction false} OthersOutOfTime(s: State, w: nat, v: nat)
    requires LockInv(s) && w < |s.callers| && v < |s.callers| && v != w
    requires InTime(s.callers[w], s.clock)
    ensures !InTime(s.callers[v], s.clock)
  {
    assert CallerInv(s, w) && CallerInv(s, v) && TokensDiffer(s, w, v);
  }

  ghost predicate SeenInv(s: State, w: nat)
    requires w < |s.callers|
  {
    var pc := s.callers[w];
    InTime(pc, s.clock) && (pc.Timed? || pc.Writing?) ==> pc.seen == |s.log|
  }

  /** A decision within the lock's time finds every other caller out of time. */
  lemma {:induction false} SeenStep(c: Rule, step: Step, s: State, v: nat)
    requires Sound(c) && Can(step, s) && LockInv(s) && Timely(step, s)
    requires v < |s.callers| && SeenInv(s, v)
    ensures SeenInv(Apply(c, step, s), v)
  {
    if (step.Load? || step.Store? || step.ReplyLost?) && step.w != v {
      OthersOutOfTime(s, step.w, v);
    }
  }

  lemma {:induction false} TimelyKeepsSeen(c: Rule, n: nat, states: seq<State>, steps: seq<Step>, i: nat, v: nat)
    requires Sound(c) && Run(c, n, states, steps) && TimelyRun(c, states, steps)
    requires i < |states| && v < |states[i].callers|
    ensures SeenInv(states[i], v)
  {
    if i > 0 {
      assert Next(c, states, steps, i - 1);
      CallersStay(c, steps[i - 1], states[i - 1]);
      TimelyKeepsSeen(c, n, states, steps, i - 1, v);
      RunKeepsLockInv(c, n, states, steps, i - 1);
      SeenStep(c, steps[i - 1], states[i - 1], v);
    }
  }

  lemma {:induction false} CallersStay(c: Rule, step: Step, s: State)
    requires Sound(c) && Can(step, s)
    ensures |Apply(c, step, s).callers| == |s.callers|
  {
  }

  /** Holders within the lock's time are not disturbed: that is what the lock is for. */
  lemma {:induction false} TimelyIsUndisturbed(c: Rule, n: nat, states: seq<State>, steps: seq<Step>)
    requires Sound(c) && Run(c, n, states, steps) && TimelyRun(c, states, steps)
    ensures UndisturbedRun(c, states, steps)
  {
    forall i | 0 <= i < |steps| && Next(c, states, steps, i) ensures Undisturbed(steps[i], states[i]) {
      if !Quiet(steps[i]) {
        TimelyKeepsSeen(c, n, states, steps, i, steps[i].w);
        RunKeepsLockInv(c, n, states, steps, i);
        assert CallerInv(states[i], steps[i].w);
      }
    }
  }

  /** However many callers interleave, crash or fail, their decisions are those of one
      sequential run of the rule on a key that never expires, as long as no holder
      outlives its lock. */
  lemma {:induction false} ConcurrentIsSequential(c: Rule, n: nat, states: seq<State>, steps: seq<Step>)
    requires Sound(c) && Run(c, n, states, steps) && TimelyRun(c, states, steps)
    ensures Sequential(c, states[|steps|].log)
  {
    TimelyIsUndisturbed(c, n, states, steps);
    UndisturbedIsSequential(c, n, states, steps);
  }

  function AdmittedIn(log: seq<Entry>, from: real, width: real): nat {
    if log == [] then 0
    else
      var e := log[|log| - 1];
      AdmittedIn(log[..|log| - 1], from, width) + if e.admitted && from <= e.now <= from + width then 1 else 0
  }

  lemma {:induction false} AdmittedIsWindow(c: Rule, log: seq<Entry>, from: real, width: real, n: nat)
    requires Sound(c) && Sequential(c, log) && n <= |log|
    ensures AdmittedIn(log[..n], from, width) == InWindow(c, None, Nows(log), from, width, n)
  {
    hide Admits, NewTat, Remaining, RetryAfter, TatAfter;
    if n > 0 {
      AdmittedIsWindow(c, log, from, width, n - 1);
      assert log[..n][..n - 1] == log[..n - 1];
      assert Nows(log)[..n - 1] == Nows(log[..n - 1]);
      assert log[n - 1] == Answer(c, Ideal(c, log[..n - 1]), log[n - 1].now);
    }
  }

  /** So undisturbed callers together stay within the rate in every window of time ... */
  lemma {:induction false} UndisturbedRateBound(
      c: Rule, n: nat, states: seq<State>, steps: seq<Step>, from: real, width: real)
    requires Sound(c) && Run(c, n, states, steps) && UndisturbedRun(c, states, steps) && width >= 0.0
    ensures AdmittedIn(states[|steps|].log, from, width) <= c.burst + (width / c.t).Floor
  {
    UndisturbedIsSequential(c, n, states, steps);
    var log := states[|steps|].log;
    AdmittedIsWindow(c, log, from, width, |log|);
    assert log[..|log|] == log;
    WindowBound(c, None, Nows(log), from, width, |log|);
  }

  /** ... and concurrent callers do when no holder outlives its lock. */
  lemma {:induction false} ConcurrentRateBound(
      c: Rule, n: nat, states: seq<State>, steps: seq<Step>, from: real, width: real)
    requires Sound(c) && Run(c, n, states, steps) && TimelyRun(c, states, steps) && width >= 0.0
    ensures AdmittedIn(states[|steps|].log, from, width) <= c.burst + (width / c.t).Floor
  {
    TimelyIsUndisturbed(c, n, states, steps);
    UndisturbedRateBound(c, n, states, steps, from, width);
  }

  // ---------------------------------------------------- a slow holder --

  const ONE_A_SECOND: Rule := Rule(1.0, 1, 0.0)

  lemma {:induction false} OneASecondIsSound()
    ensures Sound(ONE_A_SECOND)
  {
    assert Times(0, 1.0) == 0.0;
  }

  lemma {:induction false} RunGrows(c: Rule, n: nat, states: seq<State>, steps: seq<Step>, step: Step, s: State, after: State)
    requires Sound(c) && Run(c, n, states, steps) && s == states[|steps|]
    requires Can(step, s) && after == Apply(c, step, s)
    ensures Run(c, n, states + [after], steps + [step])
  {
    hide Apply, Can;
    var states', steps' := states + [after], steps + [step];
    forall i | 0 <= i < |steps'| ensures Next(c, states', steps', i) {
      if i < |steps| {
        assert Next(c, states, steps, i);
      }
    }
  }

  lemma {:induction false} EmptyRun(c: Rule, n: nat)
    requires Sound(c)
    ensures Run(c, n, [Start(n)], [])
  {
  }

  /** One caller takes the lock and reads a cold key, then sleeps past the lock's time
      to live; a second is admitted meanwhile; then the first writes its stale answer. */
  function SlowSteps(): seq<Step> {
    [Acquire(0), Time(0), Load(0), Tick(0.6), Acquire(1), Time(1), Load(1), Store(1), Store(0)]
  }

  lemma {:induction false} BetweenCallers(s3: State, stale: Pc) returns (s4: State, s5: State)
    requires Sound(ONE_A_SECOND) && s3 == State(0.0, Some(Lock(0, 0.5)), None, [stale, Idle], 1, [])
    ensures Can(Tick(0.6), s3) && s4 == Apply(ONE_A_SECOND, Tick(0.6), s3)
    ensures Can(Acquire(1), s4) && s5 == Apply(ONE_A_SECOND, Acquire(1), s4)
    ensures s5 == State(0.6, Some(Lock(1, 1.1)), None, [stale, Held(1, 0.6)], 2, [])
  {
    hide Written;
    s4 := Apply(ONE_A_SECOND, Tick(0.6), s3);
    s5 := Apply(ONE_A_SECOND, Acquire(1), s4);
  }

  lemma {:induction false} SlowRun() returns (states: seq<State>, steps: seq<Step>)
    ensures Sound(ONE_A_SECOND) && Run(ONE_A_SECOND, 2, states, steps) && steps == SlowSteps()
    ensures |states| == 10 && |states[9].log| == 2
    ensures states[9].log[0].admitted && states[9].log[0].now == 0.6
    ensures states[9].log[1].admitted && states[9].log[1].now == 0.0
  {
    hide *;
    var c, stale := ONE_A_SECOND, Writing(0, 0.0, 0.0, 0, None);
    OneASecondIsSound();
    var s1, s2, s3 := FirstCaller(Start(2), stale);
    var s4, s5 := BetweenCallers(s3, stale);
    var s6, s7, s8, s9 := SecondCaller(s5, stale);
    EmptyRun(c, 2);
    RunGrows(c, 2, [Start(2)], [], Acquire(0), Start(2), s1);
    states, steps := [Start(2)] + [s1], [] + [Acquire(0)];
    RunGrows(c, 2, states, steps, Time(0), s1, s2);
    states, steps := states + [s2], steps + [Time(0)];
    RunGrows(c, 2, states, steps, Load(0), s2, s3);
    states, steps := states + [s3], steps + [Load(0)];
    RunGrows(c, 2, states, steps, Tick(0.6), s3, s4);
    states, steps := states + [s4], steps + [Tick(0.6)];
    RunGrows(c, 2, states, steps, Acquire(1), s4, s5);
    states, steps := states + [s5], steps + [Acquire(1)];
    RunGrows(c, 2, states, steps, Time(1), s5, s6);
    states, steps := states + [s6], steps + [Time(1)];
    RunGrows(c, 2, states, steps, Load(1), s6, s7);
    states, steps := states + [s7], steps + [Load(1)];
    RunGrows(c, 2, states, steps, Store(1), s7, s8);
    states, steps := states + [s8], steps + [Store(1)];
    RunGrows(c, 2, states, steps, Store(0), s8, s9);
    states, steps := states + [s9], steps + [Store(0)];
    SlowStepsAre(steps);
  }

  lemma {:induction false} SlowStepsAre(steps: seq<Step>)
    requires steps == [Acquire(0)] + [Time(0)] + [Load(0)] + [Tick(0.6)] + [Acquire(1)] + [Time(1)] + [Load(1)] + [Store(1)] + [Store(0)]
    ensures steps == SlowSteps()
  {
  }

  lemma {:induction false} FirstCaller(s0: State, stale: Pc) returns (s1: State, s2: State, s3: State)
    requires Sound(ONE_A_SECOND) && stale == Writing(0, 0.0, 0.0, 0, None) && s0 == Start(2)
    ensures Can(Acquire(0), s0) && s1 == Apply(ONE_A_SECOND, Acquire(0), s0)
    ensures Can(Time(0), s1) && s2 == Apply(ONE_A_SECOND, Time(0), s1)
    ensures Can(Load(0), s2) && s3 == Apply(ONE_A_SECOND, Load(0), s2)
    ensures s3 == State(0.0, Some(Lock(0, 0.5)), None, [stale, Idle], 1, [])
  {
    hide Written;
    var c := ONE_A_SECOND;
    s1 := Apply(c, Acquire(0), s0);
    s2 := Apply(c, Time(0), s1);
    s3 := Apply(c, Load(0), s2);
  }

  lemma {:induction false} SecondCaller(s5: State, stale: Pc) returns (s6: State, s7: State, s8: State, s9: State)
    requires Sound(ONE_A_SECOND) && stale == Writing(0, 0.0, 0.0, 0, None)
    requires s5 == State(0.6, Some(Lock(1, 1.1)), None, [stale, Held(1, 0.6)], 2, [])
    ensures Can(Time(1), s5) && s6 == Apply(ONE_A_SECOND, Time(1), s5)
    ensures Can(Load(1), s6) && s7 == Apply(ONE_A_SECOND, Load(1), s6)
    ensures Can(Store(1), s7) && s8 == Apply(ONE_A_SECOND, Store(1), s7)
    ensures Can(Store(0), s8) && s9 == Apply(ONE_A_SECOND, Store(0), s8)
    ensures |s9.log| == 2
    ensures s9.log[0].admitted && s9.log[0].now == 0.6
    ensures s9.log[1].admitted && s9.log[1].now == 0.0
  {
    var c := ONE_A_SECOND;
    s6 := Apply(c, Time(1), s5);
    s7 := Apply(c, Load(1), s6);
    assert s7.callers == [stale, Writing(1, 0.6, 0.6, 0, None)];
    s8 := Apply(c, Store(1), s7);
    assert s8.callers[0] == stale && |s8.log| == 1;
    s9 := Apply(c, Store(0), s8);
  }

  /** Without the bound on the holder the rate bound fails: two calls 0.6 s apart are
      both admitted at one call a second with no burst. */
  lemma {:induction false} SlowHolderDoubleAdmits()
    ensures Sound(ONE_A_SECOND)
    ensures exists states: seq<State>, steps: seq<Step> ::
      Run(ONE_A_SECOND, 2, states, steps) && AdmittedIn(states[|steps|].log, 0.0, 0.6) == 2
    ensures ONE_A_SECOND.burst + (0.6 / ONE_A_SECOND.t).Floor == 1
  {
    var states, steps := SlowRun();
    var log := states[|steps|].log;
    assert log[..1] == [log[0]] && [log[0]][..0] == [];
    assert AdmittedIn(log[..1], 0.0, 0.6) == 1;
    assert Run(ONE_A_SECOND, 2, states, steps);
  }

  // ------------------------------------------ disturbed, and no harm done --

  /** The second caller reads the clock, the first only after that lock has run out; then
      the second decides, and the first, disturbed as it is, is rightly denied. */
  function LateSteps(): seq<Step> {
    [Acquire(1), Time(1), Tick(0.6), Acquire(0), Time(0), Load(1), Store(1), Load(0)]
  }

  /** Both have read the clock, at 0 s and at 0.6 s, and nobody has decided. */
  function BothTimed(): State {
    State(0.6, Some(Lock(1, 1.1)), None, [Timed(1, 0.6, 0.6, 0), Timed(0, 0.0, 0.0, 0)], 2, [])
  }

  lemma {:induction false} LateClocks() returns (s1: State, s2: State, s3: State, s4: State)
    requires Sound(ONE_A_SECOND)
    ensures Can(Acquire(1), Start(2)) && s1 == Apply(ONE_A_SECOND, Acquire(1), Start(2))
    ensures Can(Time(1), s1) && s2 == Apply(ONE_A_SECOND, Time(1), s1)
    ensures Can(Tick(0.6), s2) && s3 == Apply(ONE_A_SECOND, Tick(0.6), s2)
    ensures Can(Acquire(0), s3) && s4 == Apply(ONE_A_SECOND, Acquire(0), s3)
    ensures Can(Time(0), s4) && Apply(ONE_A_SECOND, Time(0), s4) == BothTimed()
  {
    hide Written;
    var c := ONE_A_SECOND;
    s1 := Apply(c, Acquire(1), Start(2));
    s2 := Apply(c, Time(1), s1);
    s3 := Apply(c, Tick(0.6), s2);
    assert s3 == State(0.6, Some(Lock(0, 0.5)), None, [Idle, Timed(0, 0.0, 0.0, 0)], 1, []);
    s4 := Apply(c, Acquire(0), s3);
    assert s4 == State(0.6, Some(Lock(1, 1.1)), None, [Held(1, 0.6), Timed(0, 0.0, 0.0, 0)], 2, []);
  }

  lemma {:induction false} LateDecisions() returns (s6: State, s7: State)
    requires Sound(ONE_A_SECOND)
    ensures Can(Load(1), BothTimed()) && s6 == Apply(ONE_A_SECOND, Load(1), BothTimed())
    ensures !Decides(ONE_A_SECOND, Load(1), BothTimed())
    ensures Can(Store(1), s6) && s7 == Apply(ONE_A_SECOND, Store(1), s6) && NotOvertaken(ONE_A_SECOND, Store(1), s6)
    ensures Can(Load(0), s7) && s7.callers[0].seen == 0 && |s7.log| == 1
    ensures NotOvertaken(ONE_A_SECOND, Load(0), s7) && !Undisturbed(Load(0), s7)
  {
    var c := ONE_A_SECOND;
    s6 := Apply(c, Load(1), BothTimed());
    assert s6.callers == [Timed(1, 0.6, 0.6, 0), Writing(0, 0.0, 0.0, 0, None)];
    s7 := Apply(c, Store(1), s6);
    ExpiryIsLate(c, 0.0, NewTat(c, None, 0.0), 0.6);
    assert s7.callers[0] == Timed(1, 0.6, 0.6, 0);
    assert Read(s7) == Some(1.0);
  }

  lemma {:induction false} LateRun() returns (states: seq<State>, steps: seq<Step>)
    ensures Sound(ONE_A_SECOND) && Run(ONE_A_SECOND, 2, states, steps) && steps == LateSteps() && |steps| == 8
    ensures Can(steps[5], states[5]) && !Decides(ONE_A_SECOND, steps[5], states[5])
    ensures Can(steps[6], states[6]) && NotOvertaken(ONE_A_SECOND, steps[6], states[6])
    ensures Can(steps[7], states[7]) && NotOvertaken(ONE_A_SECOND, steps[7], states[7])
    ensures !Undisturbed(steps[7], states[7])
  {
    hide *;
    var c := ONE_A_SECOND;
    OneASecondIsSound();
    var s1, s2, s3, s4 := LateClocks();
    var s6, s7 := LateDecisions();
    var s8 := Apply(c, Load(0), s7);
    EmptyRun(c, 2);
    RunGrows(c, 2, [Start(2)], [], Acquire(1), Start(2), s1);
    states, steps := [Start(2)] + [s1], [] + [Acquire(1)];
    RunGrows(c, 2, states, steps, Time(1), s1, s2);
    states, steps := states + [s2], steps + [Time(1)];
    RunGrows(c, 2, states, steps, Tick(0.6), s2, s3);
    states, steps := states + [s3], steps + [Tick(0.6)];
    RunGrows(c, 2, states, steps, Acquire(0), s3, s4);
    states, steps := states + [s4], steps + [Acquire(0)];
    RunGrows(c, 2, states, steps, Time(0), s4, BothTimed());
    states, steps := states + [BothTimed()], steps + [Time(0)];
    RunGrows(c, 2, states, steps, Load(1), BothTimed(), s6);
    states, steps := states + [s6], steps + [Load(1)];
    RunGrows(c, 2, states, steps, Store(1), s6, s7);
    states, steps := states + [s7], steps + [Store(1)];
    RunGrows(c, 2, states, steps, Load(0), s7, s8);
    states, steps := states + [s8], steps + [Load(0)];
    LateStepsAre(steps);
  }

  lemma {:induction false} LateStepsAre(steps: seq<Step>)
    requires steps == [Acquire(1)] + [Time(1)] + [Tick(0.6)] + [Acquire(0)] + [Time(0)] + [Load(1)] + [Store(1)] + [Load(0)]
    ensures steps == LateSteps()
  {
  }

  /** Being disturbed is not always harm: in this run a caller is, and the run is in order
      all the same. */
  lemma {:induction false} DisturbedInOrder() returns (states: seq<State>, steps: seq<Step>)
    ensures Sound(ONE_A_SECOND) && Run(ONE_A_SECOND, 2, states, steps)
    ensures !UndisturbedRun(ONE_A_SECOND, states, steps)
    ensures AlwaysInOrder(ONE_A_SECOND, states, |steps|)
  {
    hide Apply, Can, Decides, NotOvertaken, InOrder, Undisturbed, Run, Sound;
    states, steps := LateRun();
    RunIsTrace(ONE_A_SECOND, 2, states, steps);
    RunNext(ONE_A_SECOND, 2, states, steps, 7);
    forall i | 0 <= i < 8 && Next(ONE_A_SECOND, states, steps, i) ensures NotOvertaken(ONE_A_SECOND, steps[i], states[i]) {
      LateNotOvertaken(states, steps, i);
    }
    InOrderIffNotOvertaken(ONE_A_SECOND, 2, states, steps);
  }

  lemma {:induction false} LateNotOvertaken(states: seq<State>, steps: seq<Step>, i: nat)
    requires Sound(ONE_A_SECOND) && |states| == |steps| + 1 && steps == LateSteps() && |steps| == 8 && i < 8
    requires Next(ONE_A_SECOND, states, steps, i)
    requires Can(steps[5], states[5]) && !Decides(ONE_A_SECOND, steps[5], states[5])
    requires Can(steps[6], states[6]) && NotOvertaken(ONE_A_SECOND, steps[6], states[6])
    requires Can(steps[7], states[7]) && NotOvertaken(ONE_A_SECOND, steps[7], states[7])
    ensures NotOvertaken(ONE_A_SECOND, steps[i], states[i])
  {
    hide Apply, Can, Decides, NotOvertaken;
    if i < 5 {
      QuietNotOvertaken(ONE_A_SECOND, steps[i], states[i]);
    } else if i == 5 {
      UndecidedNotOvertaken(ONE_A_SECOND, steps[i], states[i]);
    }
  }

  lemma {:induction false} QuietNotOvertaken(c: Rule, step: Step, s: State)
    requires Can(step, s) && Quiet(step)
    ensures NotOvertaken(c, step, s)
  {
  }

  lemma {:induction false} UndecidedNotOvertaken(c: Rule, step: Step, s: State)
    requires Can(step, s) && !Decides(c, step, s)
    ensures NotOvertaken(c, step, s)
  {
  }
}
