/** The run with no fault: from any quiet state one new delivery runs through to its
    transaction, so the states the other results speak of are there to be reached. */
module HappyPath {
  import opened Wrappers
  import opened Ledger
  import opened Mapping
  import opened Protocol
  import opened Invariant
  import opened Safety
  import opened Convergence

  /** The transaction of an event no row stands for meets no unique key. */
  lemma {:induction false} NewEventNoConflict(world: World, s: State, e: Event)
    requires Inv(world, s) && !Collides(s.rows, e) && Moves(world.fees, e)
    ensures Conflict(s.ledger, MoveOf(world.fees, e)).None?
  {
    var t := MoveOf(world.fees, e);
    MoveNamesEvent(world.fees, e);
    IdsAgree(world, s);
    OldTxnsOldRows(world, s);
    forall u | u in s.ledger ensures u.id != t.id && !SameEventId(t, u) && !SameObjectKey(t, u) {
      assert TxnFits(world, s, u) && IdAgrees(u);
      if u.eventId.Some? {
        MoveNamesEvent(world.fees, s.rows[u.eventId.value].payload);
      }
    }
  }

  /** Ingest takes the delivery in and answers 200. */
  lemma {:induction false} IngestRuns(world: World, s0: State, e: Event) returns (s3: State)
    requires Inv(world, s0) && Quiet(s0) && e in world.universe && !Collides(s0.rows, e)
    ensures Run(world, s0, [Insert(e), Enqueue(|s0.reqs|), MarkQueued(|s0.reqs|, true)], s3)
    ensures s3 == s0.(
      rows := s0.rows[e.id := Row(e, Queued)], received := s0.received + [e], ready := [Msg(e, 0)],
      reqs := s0.reqs + [Closed], answers := s0.answers + [Answer(e, false)])
  {
    var r := |s0.reqs|;
    var s1 := Apply(world, s0, Insert(e));
    assert s1.reqs[r] == Enqueueing(e, e);
    var s2 := Apply(world, s1, Enqueue(r));
    assert s2.reqs == s0.reqs + [Marking(e, e)] && s2.ready == [Msg(e, 0)];
    s3 := Apply(world, s2, MarkQueued(r, true));
    assert s3.reqs == s0.reqs + [Closed];
    assert s3.rows == s0.rows[e.id := Row(e, Queued)];
    ThreeSteps(world, s0, Insert(e), s1, Enqueue(r), s2, MarkQueued(r, true), s3);
  }

  /** A worker takes the message up. */
  lemma {:induction false} WorkerStarts(world: World, s3: State, e: Event) returns (s5: State)
    requires s3.ready == [Msg(e, 0)] && s3.slots != [] && s3.slots[0].Idle? && Moves(world.fees, e)
    ensures Run(world, s3, [Take(0, 0), Begin(0, true)], s5)
    ensures s5 == s3.(ready := [], slots := s3.slots[0 := Busy(Msg(e, 0), Posting(1))])
  {
    var s4 := Apply(world, s3, Take(0, 0));
    assert s4.ready == [];
    s5 := Apply(world, s4, Begin(0, true));
    TwoSteps(world, s3, Take(0, 0), s4, Begin(0, true), s5);
  }

  /** And posts, marks and acknowledges it. */
  lemma {:induction false} WorkerPosts(world: World, s5: State, e: Event) returns (s8: State)
    requires s5.slots != [] && s5.slots[0] == Busy(Msg(e, 0), Posting(1)) && Moves(world.fees, e)
    requires e.id in s5.rows && Commits(MoveOf(world.fees, e).entries)
    requires Conflict(s5.ledger, MoveOf(world.fees, e)).None?
    ensures Run(world, s5, [Post(0, Fine), MarkDone(0, Wrote), Ack(0)], s8)
    ensures s8 == s5.(
      ledger := s5.ledger + [MoveOf(world.fees, e)], slots := s5.slots[0 := Idle],
      rows := s5.rows[e.id := s5.rows[e.id].(status := Processed)])
  {
    var s6 := Apply(world, s5, Post(0, Fine));
    assert s6.ledger == s5.ledger + [MoveOf(world.fees, e)] && s6.slots[0].pc == MarkingProcessed;
    var s7 := Apply(world, s6, MarkDone(0, Wrote));
    s8 := Apply(world, s7, Ack(0));
    ThreeSteps(world, s5, Post(0, Fine), s6, MarkDone(0, Wrote), s7, Ack(0), s8);
  }

  function HappySteps(r: nat, e: Event): seq<Step> {
    [Insert(e), Enqueue(r), MarkQueued(r, true)] + ([Take(0, 0), Begin(0, true)] + [Post(0, Fine), MarkDone(0, Wrote), Ack(0)])
  }

  lemma {:induction false} StillIdle(before: seq<Slot>, after: seq<Slot>)
    requires before != [] && after == before[0 := Idle] && forall slot :: slot in before ==> slot.Idle?
    ensures forall slot :: slot in after ==> slot.Idle?
  {
    forall slot | slot in after ensures slot.Idle? {
      var w :| 0 <= w < |after| && after[w] == slot;
      assert w > 0 ==> before[w] in before;
    }
  }

  /** One new money event, delivered to a quiet pipeline with a worker, is answered 200
      and ends as one transaction, with the pipeline quiet and its row processed. */
  lemma {:induction false} DeliveredSettles(world: World, s0: State, e: Event) returns (s8: State)
    requires Inv(world, s0) && Quiet(s0) && s0.slots != []
    requires e in world.universe && !Collides(s0.rows, e)
    requires Moves(world.fees, e) && Commits(MoveOf(world.fees, e).entries)
    ensures Run(world, s0, HappySteps(|s0.reqs|, e), s8)
    ensures Quiet(s8) && SettledRows(s0, s8)
    ensures s8.received == s0.received + [e] && s8.ledger == s0.ledger + [MoveOf(world.fees, e)]
    ensures s8.answers == s0.answers + [Answer(e, false)]
  {
    NewEventNoConflict(world, s0, e);
    var s3 := IngestRuns(world, s0, e);
    assert s0.slots[0] in s0.slots;
    var s5 := WorkerStarts(world, s3, e);
    s8 := WorkerPosts(world, s5, e);
    RunConcat(world, s3, [Take(0, 0), Begin(0, true)], s5, [Post(0, Fine), MarkDone(0, Wrote), Ack(0)], s8);
    RunConcat(world, s0, [Insert(e), Enqueue(|s0.reqs|), MarkQueued(|s0.reqs|, true)], s3,
              [Take(0, 0), Begin(0, true)] + [Post(0, Fine), MarkDone(0, Wrote), Ack(0)], s8);
    StillIdle(s0.slots, s8.slots);
  }
}
