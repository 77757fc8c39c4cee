/** Safety of the pipeline in every reachable state: nothing answered 200 is
    lost, statuses tell the truth, no movement posts twice, money is conserved. */
module Safety {
  import opened Wrappers
  import opened Ledger
  import opened Mapping
  import opened Protocol
  import opened Invariant

  /** A transaction that matches a row's payload is that row's own. */
  lemma {:induction false} MatchIsOwn(world: World, s: State, t: Txn, id: string)
    requires Inv(world, s) && t in s.ledger && id in s.rows
    requires Matches(t, s.rows[id].payload)
    ensures t.eventId == Some(id) && Moves(world.fees, s.rows[id].payload)
    ensures t == MoveOf(world.fees, s.rows[id].payload)
  {
    assert TxnFits(world, s, t);
    var own := s.rows[t.eventId.value].payload;
    MoveNamesEvent(world.fees, own);
    assert own.id == id || SameObject(own, s.rows[id].payload);
  }

  /** What may have become of the event e that row id stands for. */
  ghost predicate Accounted(world: World, s: State, e: Event, id: string)
    requires id in s.rows
  {
    var row := s.rows[id];
    || Covered(s.ledger, e)
    || NoMoney(world.fees, row.payload)
    || row.status == Failed
    || Live(s, row.payload)
    || (id in s.stranded && !Terminal(row.status))
  }

  /** No loss: what was answered 200 stands in a row of its own or of its twin,
      and that row's money is in the ledger, or was never due, or is dead-lettered,
      or a message with the row's payload is still with the broker or a worker;
      failing that, a dead-letter write was itself refused and the row is still
      one that a redelivery re-enqueues. */
  lemma {:induction false} NoLoss(world: World, s: State, a: Answer)
    requires Reachable(world, s) && a in s.answers
    ensures exists id :: AnswerRow(s, a, id) && Accounted(world, s, a.event, id)
  {
    hide Reachable, RowsInv, TrafficInv, LedgerInv;
    ReachableInv(world, s);
    var id :| AnswerRow(s, a, id);
    var row := s.rows[id];
    assert StatusFits(world, s, id);
    if row.status == Processed {
      var t :| t in s.ledger && Matches(t, row.payload);
      MatchIsOwn(world, s, t, id);
      assert Matches(t, a.event);
    }
  }

  /** Status truth, at any one moment. */
  lemma {:induction false} StatusTruth(world: World, s: State, id: string)
    requires Reachable(world, s) && id in s.rows
    ensures s.rows[id].status == Processed ==>
      exists t :: t in s.ledger && t.eventId == Some(id) && Moves(world.fees, s.rows[id].payload)
        && t == MoveOf(world.fees, s.rows[id].payload)
    ensures s.rows[id].status == NoMoneyMoved ==>
      NoMoney(world.fees, s.rows[id].payload) && forall t :: t in s.ledger ==> t.eventId != Some(id)
    ensures forall t :: t in s.ledger && t.eventId == Some(id) ==> s.rows[id].status != NoMoneyMoved
  {
    ReachableInv(world, s);
    assert StatusFits(world, s, id);
    if s.rows[id].status == Processed {
      var t :| t in s.ledger && Matches(t, s.rows[id].payload);
      MatchIsOwn(world, s, t, id);
    }
    forall t | t in s.ledger && t.eventId == Some(id) ensures Moves(world.fees, s.rows[id].payload) {
      assert TxnFits(world, s, t);
    }
  }

  lemma {:induction false} TraceAdvances(world: World, states: seq<State>, steps: seq<Step>, n: nat)
    requires Trace(world, states, steps) && n <= |steps|
    ensures RowsAdvance(states[0], states[n])
    ensures states[0].ledger <= states[n].ledger && states[0].received <= states[n].received
  {
    if n > 0 {
      TraceAdvances(world, states, steps, n - 1);
      assert Next(world, states, steps, n - 1);
      StepAdvances(world, states[n - 1], steps[n - 1]);
    }
  }

  /** Status truth, along any run: a worker-written status is never taken back,
      whatever mark_queued races it, and no posted transaction goes away. */
  lemma {:induction false} StatusStable(world: World, s1: State, steps: seq<Step>, s2: State)
    requires Run(world, s1, steps, s2)
    ensures RowsAdvance(s1, s2)
    ensures s1.ledger <= s2.ledger && s1.received <= s2.received
  {
    var states :| Along(world, states, steps, s1, s2);
    TraceAdvances(world, states, steps, |steps|);
  }

  predicate DoneFor(s: State, a: Answer, id: string) {
    id in s.rows && Blocks(s.rows[id].payload, a.event) && Terminal(s.rows[id].status)
  }

  /** Every 'duplicate' ever answered was answered for a row that stands for the event
      and carries a worker-written status, and still does after any further run. */
  lemma {:induction false} DuplicateOnlyWhenDone(world: World, s: State, a: Answer, steps: seq<Step>, s2: State)
    requires Reachable(world, s) && a in s.answers && a.duplicate && Run(world, s, steps, s2)
    ensures exists id :: DoneFor(s, a, id) && DoneFor(s2, a, id)
  {
    ReachableInv(world, s);
    StatusStable(world, s, steps, s2);
    var id :| AnswerRow(s, a, id);
    assert DoneFor(s, a, id) && DoneFor(s2, a, id);
  }

  /** A 'processed' row keeps its status over every step but one: the dead letter of
      another delivery of its own event, because the worker's update is unguarded. */
  lemma {:induction false} ProcessedLostOnlyToDeadLetter(world: World, s: State, step: Step, id: string)
    requires Can(world, s, step)
    requires id in s.rows && s.rows[id].status == Processed
    requires Inv(world, s)
    ensures id in Apply(world, s, step).rows
    ensures Apply(world, s, step).rows[id].status != Processed <==>
      step.DeadLetter? && !step.write.NotWritten? && s.slots[step.w].msg.event.id == id
    ensures Apply(world, s, step).rows[id].status in {Processed, Failed}
  {
    if step.MarkDone? {
      hide Inv;
      MarkedStaysProcessed(world, s, step, id);
    } else if !step.DeadLetter? {
      hide Apply, Can, Inv;
      OthersKeepProcessed(world, s, step, id);
    } else {
      hide Inv;
    }
  }

  lemma {:induction false} OthersKeepProcessed(world: World, s: State, step: Step, id: string)
    requires Can(world, s, step) && !step.MarkDone? && !step.DeadLetter?
    requires id in s.rows && s.rows[id].status == Processed
    ensures id in Apply(world, s, step).rows && Apply(world, s, step).rows[id].status == Processed
  {
  }

  lemma {:induction false} MarkedStaysProcessed(world: World, s: State, step: Step, id: string)
    requires step.MarkDone? && Can(world, s, step)
    requires id in s.rows && s.rows[id].status == Processed
    requires Inv(world, s)
    ensures id in Apply(world, s, step).rows && Apply(world, s, step).rows[id].status == Processed
  {
    hide Inv;
    if s.slots[step.w].msg.event.id == id {
      NotIgnored(world, s, step, id);
    }
  }

  /** A worker about to write 'no money moved' holds another event. */
  lemma {:induction false} NotIgnored(world: World, s: State, step: Step, id: string)
    requires step.MarkDone? && Can(world, s, step)
    requires id in s.rows && s.rows[id].status == Processed && s.slots[step.w].msg.event.id == id
    requires Inv(world, s)
    ensures s.slots[step.w].pc.MarkingProcessed?
  {
    hide Moves, MoveOf, RowsInv, AnswerInv, Attempt;
    assert SlotFits(world, s, s.slots[step.w]) by {
      assert s.slots[step.w] in s.slots;
    }
    assert StatusFits(world, s, id);
    var t :| t in s.ledger && Matches(t, s.rows[id].payload);
    MatchIsOwn(world, s, t, id);
  }

  /** The event a matching transaction was made from is the event matched, or a
      twin of it. */
  lemma {:induction false} MatchOrigin(world: World, s: State, e: Event, t: Txn)
    requires Inv(world, s) && Coherent(world) && e in world.universe && t in s.ledger && Matches(t, e)
    ensures t.eventId.Some? && t.eventId.value in s.rows
    ensures var x := s.rows[t.eventId.value].payload; NamesEvent(t, x) && (x == e || SameObject(x, e))
  {
    assert TxnFits(world, s, t);
    MoveNamesEvent(world.fees, s.rows[t.eventId.value].payload);
    assert s.rows[t.eventId.value].payload in world.universe;
  }

  /** Two transactions that stand for one event meet on a unique key. */
  lemma {:induction false} MatchesCollide(world: World, s: State, e: Event, t: Txn, u: Txn)
    requires Inv(world, s) && Coherent(world) && e in world.universe
    requires t in s.ledger && u in s.ledger && Matches(t, e) && Matches(u, e)
    ensures SameEventId(t, u) || SameObjectKey(t, u)
  {
    MatchOrigin(world, s, e, t);
    MatchOrigin(world, s, e, u);
  }

  /** Exactly once: no two transactions of a reachable ledger stand for one
      verified event, twin event ids and racing workers included. */
  lemma {:induction false} AtMostOnce(world: World, s: State, e: Event, i: nat, j: nat)
    requires Reachable(world, s) && Coherent(world) && e in world.universe
    requires i < |s.ledger| && j < |s.ledger| && Matches(s.ledger[i], e) && Matches(s.ledger[j], e)
    ensures i == j
  {
    ReachableInv(world, s);
    MatchesCollide(world, s, e, s.ledger[i], s.ledger[j]);
  }

  /** An event id names one event, and events for one (type, money object) map
      to the same entries. */
  ghost predicate Coherent(world: World) {
    forall a, b :: a in world.universe && b in world.universe ==>
      && (a.id == b.id ==> a == b)
      && (SameObject(a, b) ==>
          && Moves(world.fees, a) == Moves(world.fees, b)
          && (Moves(world.fees, a) ==> MoveOf(world.fees, a).entries == MoveOf(world.fees, b).entries))
  }

  /** Conservation: in every reachable state, approved repairs included, the
      global invariant holds. */
  lemma {:induction false} MoneyConserved(world: World, s: State)
    requires Reachable(world, s)
    ensures InvariantCheck(AllBalances(AllEntries(s.ledger))).Ok()
  {
    ReachableInv(world, s);
    forall t | t in s.ledger ensures Commits(t.entries) {
      assert TxnFits(world, s, t);
    }
    Conservation(s.ledger);
  }

  /** A redelivery of an event whose row is not done, a stranded one included,
      runs through to a 200 and leaves a message with the stored payload. */
  lemma {:induction false} RedeliveryRecovers(world: World, s: State, e: Event, id: string)
    requires Inv(world, s) && e in world.universe
    requires Blocking(s.rows, e, id) && !Terminal(s.rows[id].status)
    ensures var r := |s.reqs|;
      exists s2 :: Run(world, s, [Insert(e), LookUp(r, id), Enqueue(r), MarkQueued(r, true)], s2)
        && Answer(e, false) in s2.answers && Live(s2, s.rows[id].payload)
        && id in s2.rows && s2.rows[id].status == Queued && s2.ledger == s.ledger
  {
    var s4 := RedeliveryRuns(world, s, e, id);
    QueuedAt(s4, Msg(s.rows[id].payload, 0));
  }

  /** What such a redelivery does, to the letter. */
  lemma {:induction false} RedeliveryRuns(world: World, s: State, e: Event, id: string) returns (s4: State)
    requires RowsInv(world, s) && e in world.universe
    requires Blocking(s.rows, e, id) && !Terminal(s.rows[id].status)
    ensures var r := |s.reqs|;
      Run(world, s, [Insert(e), LookUp(r, id), Enqueue(r), MarkQueued(r, true)], s4)
    ensures s4 == s.(
      rows := QueuedRows(s.rows, id), received := s.received + [e],
      ready := s.ready + [Msg(s.rows[id].payload, 0)],
      reqs := s.reqs + [Closed], answers := s.answers + [Answer(e, false)])
  {
    var r, target := |s.reqs|, s.rows[id].payload;
    var s1 := Apply(world, s, Insert(e));
    assert s1 == s.(received := s.received + [e], reqs := s.reqs + [Looking(e)]);
    var s2 := Apply(world, s1, LookUp(r, id));
    assert s2 == s1.(reqs := s.reqs + [Enqueueing(e, target)]);
    var s3 := Apply(world, s2, Enqueue(r));
    assert s3 == s2.(reqs := s.reqs + [Marking(e, target)], ready := s.ready + [Msg(target, 0)]);
    s4 := Apply(world, s3, MarkQueued(r, true));
    assert s4.reqs == s.reqs + [Closed];
    TwoSteps(world, s, Insert(e), s1, LookUp(r, id), s2);
    TwoSteps(world, s2, Enqueue(r), s3, MarkQueued(r, true), s4);
    RunConcat(world, s, [Insert(e), LookUp(r, id)], s2, [Enqueue(r), MarkQueued(r, true)], s4);
    assert [Insert(e), LookUp(r, id)] + [Enqueue(r), MarkQueued(r, true)]
      == [Insert(e), LookUp(r, id), Enqueue(r), MarkQueued(r, true)];
  }
}
