/** Runs that go wrong: concrete ways through the protocol that end where the code's
    own documentation does not lead one to expect, and the way back. */
module Mishaps {
  import opened Wrappers
  import opened Ledger
  import opened Mapping
  import opened Protocol
  import opened Invariant
  import opened Safety
  import opened Convergence
  import opened Shortfall
  import opened HappyPath

  // ------------------------------------------------- six failed attempts --

  /** One attempt of process_event that finds the database gone. */
  const FAILED_TRY: seq<Step> := [Take(0, 0), Begin(0, true), Post(0, Unavailable)] + [Fail(0), Ack(0)]

  function LastTry(write: WriteFault): seq<Step> {
    [Take(0, 0), Begin(0, true), Post(0, Unavailable)] + [Fail(0), DeadLetter(0, write), Ack(0)]
  }

  function GivesUp(retries: nat, write: WriteFault): seq<Step>
    requires retries <= MAX_RETRIES
    decreases MAX_RETRIES - retries
  {
    if retries == MAX_RETRIES then LastTry(write) else FAILED_TRY + GivesUp(retries + 1, write)
  }

  /** One message, and the first worker free for it. */
  ghost predicate Waiting(s: State, m: Msg) {
    s.ready == [m] && s.slots != [] && s.slots[0].Idle?
  }

  lemma {:induction false} TryFails(world: World, s: State, m: Msg) returns (s3: State)
    requires Waiting(s, m) && Moves(world.fees, m.event)
    ensures Run(world, s, [Take(0, 0), Begin(0, true), Post(0, Unavailable)], s3)
    ensures s3 == s.(ready := [], slots := s.slots[0 := Busy(m, Failing)])
  {
    var s1 := Apply(world, s, Take(0, 0));
    assert s1 == s.(ready := [], slots := s.slots[0 := Busy(m, Starting)]);
    var s2 := Apply(world, s1, Begin(0, true));
    assert s2 == s1.(slots := s.slots[0 := Busy(m, Posting(1))]);
    s3 := Apply(world, s2, Post(0, Unavailable));
    ThreeSteps(world, s, Take(0, 0), s1, Begin(0, true), s2, Post(0, Unavailable), s3);
  }

  lemma {:induction false} TryIsRetried(world: World, s: State, m: Msg) returns (s5: State)
    requires Waiting(s, m) && Moves(world.fees, m.event) && m.retries < MAX_RETRIES
    ensures Run(world, s, FAILED_TRY, s5)
    ensures s5 == s.(ready := [Msg(m.event, m.retries + 1)])
  {
    var s3 := TryFails(world, s, m);
    var s4 := Apply(world, s3, Fail(0));
    s5 := Apply(world, s4, Ack(0));
    assert s5.slots == s.slots;
    TwoSteps(world, s3, Fail(0), s4, Ack(0), s5);
    RunConcat(world, s, [Take(0, 0), Begin(0, true), Post(0, Unavailable)], s3, [Fail(0), Ack(0)], s5);
  }

  /** What the dead-letter write leaves behind. */
  function DeadLettered(s: State, e: Event, write: WriteFault): State {
    if write.NotWritten? then s.(ready := [], stranded := s.stranded + {e.id})
    else s.(ready := [], rows := Marked(s.rows, e, Failed))
  }

  lemma {:induction false} LastTryFails(world: World, s: State, m: Msg, write: WriteFault) returns (s6: State)
    requires Waiting(s, m) && Moves(world.fees, m.event) && m.retries == MAX_RETRIES
    ensures Run(world, s, LastTry(write), s6)
    ensures s6 == DeadLettered(s, m.event, write)
  {
    var s3 := TryFails(world, s, m);
    var s4 := Apply(world, s3, Fail(0));
    assert s4 == s3.(slots := s.slots[0 := Busy(m, DeadLettering)]);
    var s5 := Apply(world, s4, DeadLetter(0, write));
    s6 := Apply(world, s5, Ack(0));
    assert s6.slots == s.slots;
    ThreeSteps(world, s3, Fail(0), s4, DeadLetter(0, write), s5, Ack(0), s6);
    RunConcat(world, s, [Take(0, 0), Begin(0, true), Post(0, Unavailable)], s3, [Fail(0), DeadLetter(0, write), Ack(0)], s6);
  }

  lemma {:induction false} AllTriesFail(world: World, s: State, m: Msg, write: WriteFault) returns (s2: State)
    requires Waiting(s, m) && Moves(world.fees, m.event) && m.retries <= MAX_RETRIES
    ensures Run(world, s, GivesUp(m.retries, write), s2)
    ensures s2 == DeadLettered(s, m.event, write)
    decreases MAX_RETRIES - m.retries
  {
    if m.retries == MAX_RETRIES {
      s2 := LastTryFails(world, s, m, write);
    } else {
      var next := Msg(m.event, m.retries + 1);
      var s1 := TryIsRetried(world, s, m);
      s2 := AllTriesFail(world, s1, next, write);
      RunConcat(world, s, FAILED_TRY, s1, GivesUp(next.retries, write), s2);
    }
  }

  // ------------------------------------------------ stranded, and back --

  /** A quiet pipeline with a worker, and a new event that moves money. */
  ghost predicate Fresh(world: World, s0: State, e: Event) {
    && Inv(world, s0) && Quiet(s0) && s0.slots != []
    && e in world.universe && !Collides(s0.rows, e)
    && Moves(world.fees, e) && Commits(MoveOf(world.fees, e).entries)
  }

  function Ingested(r: nat, e: Event): seq<Step> {
    [Insert(e), Enqueue(r), MarkQueued(r, true)]
  }

  /** Answered 200, tried six times in vain, and then the write of 'failed' is itself
      refused: the pipeline is quiet, the message is gone, the row still reads
      'queued' and the ledger has nothing. */
  lemma {:induction false} Strands(world: World, s0: State, e: Event) returns (s: State)
    requires Fresh(world, s0, e)
    ensures Run(world, s0, Ingested(|s0.reqs|, e) + GivesUp(0, NotWritten), s)
    ensures s == s0.(
      rows := s0.rows[e.id := Row(e, Queued)], received := s0.received + [e], reqs := s0.reqs + [Closed],
      answers := s0.answers + [Answer(e, false)], stranded := s0.stranded + {e.id})
    ensures Quiet(s) && !Live(s, e)
  {
    var s3 := IngestRuns(world, s0, e);
    assert s0.slots[0] in s0.slots;
    s := AllTriesFail(world, s3, Msg(e, 0), NotWritten);
    RunConcat(world, s0, Ingested(|s0.reqs|, e), s3, GivesUp(0, NotWritten), s);
    assert s.ready == s0.ready;
  }

  function Redelivered(r: nat, e: Event): seq<Step> {
    [Insert(e), LookUp(r, e.id), Enqueue(r), MarkQueued(r, true)]
    + ([Take(0, 0), Begin(0, true)] + [Post(0, Fine), MarkDone(0, Wrote), Ack(0)])
  }

  /** The next delivery puts it right, and the state it ends in is clear although the
      row is among the stranded for good. */
  lemma {:induction false} StrandedRecovers(world: World, s0: State, e: Event) returns (s: State, s2: State)
    requires Fresh(world, s0, e)
    ensures Run(world, s0, Ingested(|s0.reqs|, e) + GivesUp(0, NotWritten), s)
    ensures Run(world, s, Redelivered(|s.reqs|, e), s2)
    ensures Quiet(s2) && Clear(s0, s2) && e.id in s2.stranded
    ensures s2.ledger == s0.ledger + [MoveOf(world.fees, e)]
  {
    hide Along, Resolved, Attempt;
    NewEventNoConflict(world, s0, e);
    s := Strands(world, s0, e);
    RunKeepsInv(world, s0, Ingested(|s0.reqs|, e) + GivesUp(0, NotWritten), s);
    var s4 := RedeliveryRuns(world, s, e, e.id);
    assert s0.slots[0] in s0.slots;
    var s6 := WorkerStarts(world, s4, e);
    s2 := WorkerPosts(world, s6, e);
    RunConcat(world, s4, [Take(0, 0), Begin(0, true)], s6, [Post(0, Fine), MarkDone(0, Wrote), Ack(0)], s2);
    RunConcat(world, s, [Insert(e), LookUp(|s.reqs|, e.id), Enqueue(|s.reqs|), MarkQueued(|s.reqs|, true)], s4,
              [Take(0, 0), Begin(0, true)] + [Post(0, Fine), MarkDone(0, Wrote), Ack(0)], s2);
    StillIdle(s0.slots, s2.slots);
  }

  // ----------------------------------------------- processed, then failed --

  function HalfMarked(): seq<Step> {
    [Take(0, 0), Begin(0, true)] + [Post(0, Fine), MarkDone(0, WroteButRaised)] + [Fail(0), Ack(0)]
  }

  /** The post commits and the row becomes 'processed', but the write reports an error,
      so the message is retried. */
  lemma {:induction false} MarksAndRetries(world: World, s3: State, e: Event) returns (s7: State, s9: State)
    requires Waiting(s3, Msg(e, 0)) && Moves(world.fees, e) && Commits(MoveOf(world.fees, e).entries)
    requires e.id in s3.rows && Conflict(s3.ledger, MoveOf(world.fees, e)).None?
    ensures Run(world, s3, HalfMarked(), s9)
    ensures s9 == s3.(
      ready := [Msg(e, 1)], ledger := s3.ledger + [MoveOf(world.fees, e)],
      rows := s3.rows[e.id := s3.rows[e.id].(status := Processed)])
  {
    hide Resolved;
    var s5 := WorkerStarts(world, s3, e);
    var s6 := Apply(world, s5, Post(0, Fine));
    assert s6.slots[0].pc == MarkingProcessed;
    s7 := Apply(world, s6, MarkDone(0, WroteButRaised));
    var s8 := Apply(world, s7, Fail(0));
    s9 := Apply(world, s8, Ack(0));
    assert s9.slots == s3.slots;
    TwoSteps(world, s5, Post(0, Fine), s6, MarkDone(0, WroteButRaised), s7);
    TwoSteps(world, s7, Fail(0), s8, Ack(0), s9);
    RunConcat(world, s3, [Take(0, 0), Begin(0, true)], s5, [Post(0, Fine), MarkDone(0, WroteButRaised)], s7);
    RunConcat(world, s3, [Take(0, 0), Begin(0, true)] + [Post(0, Fine), MarkDone(0, WroteButRaised)], s7, [Fail(0), Ack(0)], s9);
  }

  /** A row that was 'processed' and truly posted ends 'failed', with its transaction
      in the ledger: 'failed' does not mean the money is missing. */
  lemma {:induction false} ProcessedBecomesFailed(world: World, s0: State, e: Event) returns (s: State, s2: State)
    requires Fresh(world, s0, e)
    ensures Run(world, s0, Ingested(|s0.reqs|, e) + HalfMarked(), s)
    ensures e.id in s.rows && s.rows[e.id].status == Processed
    ensures Run(world, s, GivesUp(1, Wrote), s2)
    ensures Quiet(s2) && e.id in s2.rows && s2.rows[e.id].status == Failed
    ensures s2.ledger == s0.ledger + [MoveOf(world.fees, e)]
  {
    NewEventNoConflict(world, s0, e);
    var s3 := IngestRuns(world, s0, e);
    assert s0.slots[0] in s0.slots;
    var s7;
    s7, s := MarksAndRetries(world, s3, e);
    RunConcat(world, s0, Ingested(|s0.reqs|, e), s3, HalfMarked(), s);
    s2 := AllTriesFail(world, s, Msg(e, 1), Wrote);
  }

  // --------------------------------------------------- on concrete states --

  /** One charge of 10.00 with a fee of 0.59, and nothing else in the world. */
  const CHARGE := Event(
    "evt_1", ChargeSucceeded, Some(0),
    Some(MoneyObject(Some("ch_1"), Some("usd"), Some(1000), None, None, Some(Expanded(59)), None, [], [])))

  ghost function OneCharge(): World {
    World(_ => 0, iset{CHARGE})
  }

  lemma {:induction false} ChargeMoves()
    ensures Moves(OneCharge().fees, CHARGE) && Commits(MoveOf(OneCharge().fees, CHARGE).entries)
    ensures Coherent(OneCharge())
  {
    var t := MoveOf(OneCharge().fees, CHARGE);
    assert Upper("usd") == CHART_CURRENCY;
    CommitsIffSound(CHARGE, None);
  }

  lemma {:induction false} FreshStart()
    ensures Fresh(OneCharge(), Start(1), CHARGE)
  {
    ChargeMoves();
    StartInv(OneCharge(), 1);
  }

  lemma {:induction false} OneFirst(fees: Event -> int, e: Event)
    requires Moves(fees, e)
    ensures MoneyFirsts(fees, [e]) == [e]
  {
    hide Moves;
    var none: seq<Event> := [];
    assert [e][..0] == none;
    assert !BlockedBy(Firsts(none), e);
    assert Firsts([e]) == [e];
    assert Money(fees, [e]) == Money(fees, none) + [e];
  }

  lemma {:induction false} OnlyFirst(fees: Event -> int)
    requires Moves(fees, CHARGE)
    ensures MoneyFirsts(fees, [CHARGE]) == [CHARGE]
  {
    hide Moves, MoneyFirsts;
    OneFirst(fees, CHARGE);
  }

  lemma {:induction false} ChargeIsMissing(steps: seq<Step>, s: State)
    requires Run(OneCharge(), Start(1), steps, s) && s.received == [CHARGE] && s.ledger == []
    ensures !Converged(OneCharge(), s, [CHARGE])
  {
    ChargeMoves();
    OnlyFirst(OneCharge().fees);
    ConvergedIffPosted(OneCharge(), 1, steps, s, [CHARGE]);
    assert CHARGE in [CHARGE];
  }

  /** That every event answered 200 is in the balances once the pipeline is quiet and no
      row failed does not hold of every run: this one ends with a charge of 10.00
      missing, its row 'queued' and no message left to work on it. */
  lemma {:induction false} QuietIsNotEnough() returns (steps: seq<Step>, s: State)
    ensures Run(OneCharge(), Start(1), steps, s) && Quiet(s) && s.received == [CHARGE]
    ensures s.answers == [Answer(CHARGE, false)] && AllAnswered(Start(1), s)
    ensures s.rows == map[CHARGE.id := Row(CHARGE, Queued)] && !Live(s, CHARGE)
    ensures s.ledger == [] && !Converged(OneCharge(), s, [CHARGE])
  {
    hide Moves, Converged, Fresh, GivesUp, Inv, Run;
    FreshStart();
    s := Strands(OneCharge(), Start(1), CHARGE);
    steps := Ingested(|Start(1).reqs|, CHARGE) + GivesUp(0, NotWritten);
    assert s.answers[0] in s.answers;
    ChargeIsMissing(steps, s);
  }

  /** Sound amounts are needed: a charge of nothing maps to a transaction the database
      never commits, and its absence shows in no balance. */
  lemma {:induction false} EmptyChargeIsInvisible(fees: Event -> int, a: Account)
    ensures var e := CHARGE.(data := Some(CHARGE.data.value.(amount := Some(0), balanceTransaction := Some(Expanded(0)))));
      Moves(fees, e) && !Commits(MoveOf(fees, e).entries) && Effect(fees, a, e) == 0
  {
  }

  // --------------------------------------------------------- how often --

  function Takes(steps: seq<Step>): nat {
    if steps == [] then 0 else (if steps[0].Take? then 1 else 0) + Takes(steps[1..])
  }

  lemma {:induction false} TakesConcat(xs: seq<Step>, ys: seq<Step>)
    ensures Takes(xs + ys) == Takes(xs) + Takes(ys)
  {
    if xs == [] {
      assert xs + ys == ys;
    } else {
      assert (xs + ys)[1..] == xs[1..] + ys;
      TakesConcat(xs[1..], ys);
    }
  }

  lemma {:induction false} TakesOnce(write: WriteFault)
    ensures Takes(FAILED_TRY) == 1 && Takes(LastTry(write)) == 1
  {
    TakesOne(FAILED_TRY);
    TakesOne(LastTry(write));
  }

  lemma {:induction false} TakesOne(steps: seq<Step>)
    requires steps != [] && steps[0].Take? && forall i :: 0 < i < |steps| ==> !steps[i].Take?
    ensures Takes(steps) == 1
  {
    TakesNone(steps[1..]);
  }

  lemma {:induction false} TakesNone(steps: seq<Step>)
    requires forall i :: 0 <= i < |steps| ==> !steps[i].Take?
    ensures Takes(steps) == 0
  {
    if steps != [] {
      TakesNone(steps[1..]);
    }
  }

  /** A message is taken up six times before it is given up, not counting the tries it
      has behind it. */
  lemma {:induction false} SixTries(retries: nat, write: WriteFault)
    requires retries <= 5
    ensures Takes(GivesUp(retries, write)) == 6 - retries
    decreases 5 - retries
  {
    hide Takes;
    TakesOnce(write);
    if retries < 5 {
      SixTries(retries + 1, write);
      TakesConcat(FAILED_TRY, GivesUp(retries + 1, write));
    }
  }
}
