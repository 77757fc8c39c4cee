/** What a run leaves in the ledger once its events are settled: each distinct
    movement of the events received, exactly once, and nothing else. */
module Convergence {
  import opened Wrappers
  import opened Sums
  import opened Ledger
  import opened Mapping
  import opened Protocol
  import opened Invariant
  import opened Safety

  predicate BlockedBy(firsts: seq<Event>, e: Event) {
    exists f | f in firsts :: Blocks(f, e)
  }

  /** The events that are no repetition, by either dedupe key, of an earlier one. */
  function Firsts(events: seq<Event>): seq<Event> {
    if events == [] then []
    else
      var earlier, e := Firsts(events[..|events| - 1]), events[|events| - 1];
      if BlockedBy(earlier, e) then earlier else earlier + [e]
  }

  function MoneyFirsts(fees: Event -> int, events: seq<Event>): seq<Event> {
    Money(fees, Firsts(events))
  }

  function Money(fees: Event -> int, events: seq<Event>): (money: seq<Event>)
    ensures forall e :: e in money <==> e in events && Moves(fees, e)
  {
    if events == [] then []
    else
      var earlier, e := Money(fees, events[..|events| - 1]), events[|events| - 1];
      assert events == events[..|events| - 1] + [e];
      if Moves(fees, e) then earlier + [e] else earlier
  }

  function Effect(fees: Event -> int, a: Account, e: Event): int {
    if Moves(fees, e) then Balance(a, MoveOf(fees, e).entries) else 0
  }

  /** The reference: the sum of the mapped deltas, each movement counted once. */
  function ExpectedChange(fees: Event -> int, a: Account, events: seq<Event>): int {
    Sum(MoneyFirsts(fees, events), (e: Event) => Effect(fees, a, e))
  }

  function EventTxns(txns: seq<Txn>): (out: seq<Txn>)
    ensures forall t :: t in out <==> t in txns && t.eventId.Some?
  {
    if txns == [] then []
    else
      var earlier, t := EventTxns(txns[..|txns| - 1]), txns[|txns| - 1];
      assert txns == txns[..|txns| - 1] + [t];
      if t.eventId.Some? then earlier + [t] else earlier
  }

  function Repairs(txns: seq<Txn>): seq<Txn> {
    if txns == [] then []
    else
      var earlier, t := Repairs(txns[..|txns| - 1]), txns[|txns| - 1];
      if t.eventId.None? then earlier + [t] else earlier
  }

  lemma {:induction false} NetChangeSplits(a: Account, txns: seq<Txn>)
    ensures NetChange(a, txns) == NetChange(a, EventTxns(txns)) + NetChange(a, Repairs(txns))
  {
    if txns != [] {
      NetChangeSplits(a, txns[..|txns| - 1]);
    }
  }

  // -------------------------------------------------- a stretch of a run --

  /** Nothing is under way: no message, no busy worker, no open request. */
  ghost predicate Quiet(s: State) {
    && s.ready == []
    && (forall slot :: slot in s.slots ==> slot.Idle?)
    && (forall q :: q in s.reqs ==> q.Closed?)
  }

  function Since(s0: State, s: State): seq<Event>
    requires s0.received <= s.received
  {
    s.received[|s0.received|..]
  }

  /** What the stretch after s0 may do beyond ingest and worker steps: redrive
      its own rows only, and deliver events no earlier row stands for. */
  predicate Ours(s0: State, step: Step) {
    && (step.Redrive? ==> step.id !in s0.rows)
    && (step.Insert? ==> !Collides(s0.rows, step.e))
  }

  predicate ReqOurs(s0: State, q: Req) {
    match q
    case Looking(e) => !Collides(s0.rows, e)
    case Enqueueing(_, target) => target.id !in s0.rows
    case Marking(_, target) => target.id !in s0.rows
    case Closed => true
  }

  /** The rows added since rows0 are exactly the firsts, payload for payload. */
  ghost predicate RowsAreFirsts(rows0: Rows, rows: Rows, firsts: seq<Event>) {
    && (forall id :: id in rows && id !in rows0 ==> rows[id].payload in firsts)
    && (forall f :: f in firsts ==> f.id !in rows0 && f.id in rows && rows[f.id].payload == f)
  }

  ghost predicate NewRows(s0: State, s: State)
    requires s0.received <= s.received
  {
    RowsAreFirsts(s0.rows, s.rows, Firsts(Since(s0, s)))
  }

  ghost predicate Stretch(s0: State, s: State) {
    && RowsAdvance(s0, s)
    && s0.received <= s.received
    && s0.ledger <= s.ledger
    && NewRows(s0, s)
    && (forall m :: m in s.ready ==> m.event.id !in s0.rows)
    && (forall slot :: slot in s.slots && slot.Busy? ==> slot.msg.event.id !in s0.rows)
    && (forall q :: q in s.reqs ==> ReqOurs(s0, q))
    && TxnsOurs(s0, s.ledger[|s0.ledger|..])
  }

  lemma {:induction false} StretchStarts(world: World, s0: State)
    requires Inv(world, s0) && Quiet(s0)
    ensures Stretch(s0, s0)
  {
    assert s0.ledger[|s0.ledger|..] == [];
    assert Since(s0, s0) == [];
  }

  /** Firsts tracks the inserts: an event is a repetition exactly when its insert
      meets a row. */
  lemma {:induction false} FirstsStep(world: World, s0: State, s: State, e: Event)
    requires Inv(world, s) && Stretch(s0, s) && !Collides(s0.rows, e)
    ensures BlockedBy(Firsts(Since(s0, s)), e) <==> Collides(s.rows, e)
  {
    var firsts := Firsts(Since(s0, s));
    if Collides(s.rows, e) {
      var id :| id in s.rows && (id == e.id || SameObject(s.rows[id].payload, e));
      assert id !in s0.rows;
      assert s.rows[id].payload in firsts && Blocks(s.rows[id].payload, e);
    }
  }

  lemma {:induction false} FirstsAppend(events: seq<Event>, e: Event)
    ensures Firsts(events + [e]) ==
      if BlockedBy(Firsts(events), e) then Firsts(events) else Firsts(events) + [e]
  {
    assert (events + [e])[..|events|] == events;
  }

  lemma {:induction false} RecordedAreFirsts(rows0: Rows, rows: Rows, firsts: seq<Event>, e: Event)
    requires RowsAreFirsts(rows0, rows, firsts) && !Collides(rows0, e)
    ensures RowsAreFirsts(rows0, Recorded(rows, e), if Collides(rows, e) then firsts else firsts + [e])
  {
  }

  lemma {:induction false} InsertNewRows(world: World, s0: State, s: State, step: Step)
    requires Inv(world, s) && Can(world, s, step) && step.Insert? && Ours(s0, step) && Stretch(s0, s)
    ensures s0.received <= Apply(world, s, step).received
    ensures NewRows(s0, Apply(world, s, step))
  {
    var s2, e := Apply(world, s, step), step.e;
    FirstsStep(world, s0, s, e);
    assert Since(s0, s2) == Since(s0, s) + [e];
    FirstsAppend(Since(s0, s), e);
    RecordedAreFirsts(s0.rows, s.rows, Firsts(Since(s0, s)), e);
  }

  lemma {:induction false} SameRowsNewRows(s0: State, s1: State, s2: State)
    requires s0.received <= s1.received == s2.received && NewRows(s0, s1)
    requires s2.rows.Keys == s1.rows.Keys
    requires forall id :: id in s1.rows ==> s2.rows[id].payload == s1.rows[id].payload
    ensures NewRows(s0, s2)
  {
    assert forall id :: id in s2.rows ==> id in s2.rows.Keys && id in s1.rows;
    assert forall id :: id in s1.rows ==> id in s1.rows.Keys && id in s2.rows;
  }

  lemma {:induction false} NewRowsStep(world: World, s0: State, s: State, step: Step)
    requires Inv(world, s) && Can(world, s, step) && Ours(s0, step) && Stretch(s0, s)
    ensures s0.received <= Apply(world, s, step).received
    ensures NewRows(s0, Apply(world, s, step))
  {
    hide Apply, Can, Inv, NewRows;
    if step.Insert? {
      InsertNewRows(world, s0, s, step);
    } else {
      StepAdvances(world, s, step);
      RowChange(world, s, step);
      OnlyInsertReceives(world, s, step);
      SameRowsNewRows(s0, s, Apply(world, s, step));
    }
  }

  lemma {:induction false} ReadyOursStep(world: World, s0: State, s: State, step: Step, m: Msg)
    requires Can(world, s, step) && Ours(s0, step) && Stretch(s0, s)
    requires Inv(world, s) && m in Apply(world, s, step).ready
    ensures m.event.id !in s0.rows
  {
    hide RowsAdvance, NewRows, TrafficInv, LedgerInv;
    if step.Redrive? {
      assert s.rows[step.id].payload.id == step.id;
    } else {
      ReadyFrom(world, s, step, m);
    }
  }

  /** The message a step leaves with a worker was with it, or queued, before. */
  lemma {:induction false} SlotFrom(world: World, s: State, step: Step, w: nat)
    requires Can(world, s, step) && w < |s.slots|
    ensures |Apply(world, s, step).slots| == |s.slots|
    ensures var slot := Apply(world, s, step).slots[w];
      slot.Busy? ==> slot.msg in s.ready || (s.slots[w].Busy? && slot.msg == s.slots[w].msg)
  {
    hide Attempt, Marked, FirstPc, PcAfter, MoveOf, Moves;
  }

  lemma {:induction false} SlotOursStep(world: World, s0: State, s: State, step: Step, w: nat)
    requires Can(world, s, step) && Stretch(s0, s)
    requires w < |s.slots|
    ensures |Apply(world, s, step).slots| == |s.slots|
    ensures var slot := Apply(world, s, step).slots[w]; slot.Busy? ==> slot.msg.event.id !in s0.rows
  {
    hide Apply, Can, RowsAdvance, NewRows, TxnsOurs;
    SlotFrom(world, s, step, w);
    assert s.slots[w] in s.slots;
  }

  lemma {:induction false} TrafficOursStep(world: World, s0: State, s: State, step: Step)
    requires Inv(world, s) && Can(world, s, step) && Ours(s0, step) && Stretch(s0, s)
    ensures var s2 := Apply(world, s, step);
      && (forall m :: m in s2.ready ==> m.event.id !in s0.rows)
      && (forall slot :: slot in s2.slots && slot.Busy? ==> slot.msg.event.id !in s0.rows)
  {
    hide Apply, Can, Inv, Ours, Stretch;
    var s2 := Apply(world, s, step);
    SlotsChange(world, s, step);
    forall m | m in s2.ready ensures m.event.id !in s0.rows {
      ReadyOursStep(world, s0, s, step, m);
    }
    forall slot | slot in s2.slots && slot.Busy? ensures slot.msg.event.id !in s0.rows {
      var w :| 0 <= w < |s2.slots| && s2.slots[w] == slot;
      SlotOursStep(world, s0, s, step, w);
    }
  }

  /** A fresh event is never blocked by a row from before the stretch. */
  lemma {:induction false} LookUpOurs(s0: State, s: State, e: Event, id: string)
    requires RowsAdvance(s0, s) && !Collides(s0.rows, e) && Blocking(s.rows, e, id)
    ensures id !in s0.rows
  {
  }

  lemma {:induction false} NewReqOurs(world: World, s0: State, s: State, step: Step)
    requires Inv(world, s) && Can(world, s, step) && Ours(s0, step) && step.Insert?
    ensures |Apply(world, s, step).reqs| == |s.reqs| + 1
    ensures ReqOurs(s0, Apply(world, s, step).reqs[|s.reqs|])
  {
  }

  lemma {:induction false} MovedReqOurs(world: World, s0: State, s: State, step: Step)
    requires Inv(world, s) && Can(world, s, step) && RowsAdvance(s0, s) && (step.LookUp? || step.Enqueue?)
    requires ReqOurs(s0, s.reqs[step.r])
    ensures step.r < |Apply(world, s, step).reqs|
    ensures ReqOurs(s0, Apply(world, s, step).reqs[step.r])
  {
    hide TrafficInv, LedgerInv, StatusInv, AnswerInv;
    if step.LookUp? {
      LookUpOurs(s0, s, s.reqs[step.r].event, step.id);
      assert s.rows[step.id].payload.id == step.id;
    }
  }

  lemma {:induction false} OldReqOurs(world: World, s0: State, s: State, step: Step, r: nat)
    requires Inv(world, s) && Can(world, s, step) && Stretch(s0, s)
    requires r < |s.reqs| <= |Apply(world, s, step).reqs|
    ensures ReqOurs(s0, Apply(world, s, step).reqs[r])
  {
    hide Apply, Can, Inv, RowsAdvance, NewRows;
    assert ReqOurs(s0, s.reqs[r]) by {
      assert s.reqs[r] in s.reqs;
    }
    ReqsChange(world, s, step);
    if (step.LookUp? || step.Enqueue?) && step.r == r {
      MovedReqOurs(world, s0, s, step);
    }
  }

  lemma {:induction false} ReqOursStep(world: World, s0: State, s: State, step: Step, r: nat)
    requires Inv(world, s) && Can(world, s, step) && Ours(s0, step) && Stretch(s0, s)
    requires r < |Apply(world, s, step).reqs|
    ensures ReqOurs(s0, Apply(world, s, step).reqs[r])
  {
    hide Apply, Can, Inv, Ours, Stretch, ReqOurs;
    ReqsChange(world, s, step);
    if step.Insert? && r == |s.reqs| {
      NewReqOurs(world, s0, s, step);
    } else {
      OldReqOurs(world, s0, s, step, r);
    }
  }

  ghost predicate TxnsOurs(s0: State, txns: seq<Txn>) {
    forall t :: t in txns && t.eventId.Some? ==> t.eventId.value !in s0.rows
  }

  lemma {:induction false} CandidateOurs(world: World, s0: State, s: State, step: Step)
    requires Inv(world, s) && Can(world, s, step) && Stretch(s0, s)
    requires Candidate(world, s, step).Some?
    ensures TxnsOurs(s0, [Candidate(world, s, step).value])
  {
    if step.Post? {
      assert s.slots[step.w] in s.slots;
      MoveNamesEvent(world.fees, s.slots[step.w].msg.event);
    }
  }

  lemma {:induction false} LedgerOursStep(world: World, s0: State, s: State, step: Step)
    requires Inv(world, s) && Can(world, s, step) && Stretch(s0, s)
    ensures s0.ledger <= Apply(world, s, step).ledger
    ensures TxnsOurs(s0, Apply(world, s, step).ledger[|s0.ledger|..])
  {
    var after := Apply(world, s, step).ledger;
    LedgerChange(world, s, step);
    if after != s.ledger {
      var t := Candidate(world, s, step).value;
      CandidateOurs(world, s0, s, step);
      assert t in [t];
      assert after[|s0.ledger|..] == s.ledger[|s0.ledger|..] + [t];
    }
  }

  lemma {:induction false} StretchStep(world: World, s0: State, s: State, step: Step)
    requires Inv(world, s) && Can(world, s, step) && Ours(s0, step) && Stretch(s0, s)
    ensures Stretch(s0, Apply(world, s, step))
  {
    StepAdvances(world, s, step);
    NewRowsStep(world, s0, s, step);
    TrafficOursStep(world, s0, s, step);
    var s2 := Apply(world, s, step);
    forall q | q in s2.reqs ensures ReqOurs(s0, q) {
      var r :| 0 <= r < |s2.reqs| && s2.reqs[r] == q;
      ReqOursStep(world, s0, s, step, r);
    }
    LedgerOursStep(world, s0, s, step);
  }

  lemma {:induction false} StretchTo(world: World, states: seq<State>, steps: seq<Step>, n: nat)
    requires Trace(world, states, steps) && n <= |steps|
    requires Inv(world, states[0]) && Quiet(states[0])
    requires forall i :: 0 <= i < |steps| ==> Ours(states[0], steps[i])
    ensures Stretch(states[0], states[n])
  {
    if n == 0 {
      StretchStarts(world, states[0]);
    } else {
      StretchTo(world, states, steps, n - 1);
      TraceKeepsInv(world, states, steps, n - 1);
      assert Next(world, states, steps, n - 1);
      StretchStep(world, states[0], states[n - 1], steps[n - 1]);
    }
  }

  lemma {:induction false} StretchRun(world: World, s0: State, steps: seq<Step>, s1: State)
    requires Inv(world, s0) && Quiet(s0) && Run(world, s0, steps, s1)
    requires forall i :: 0 <= i < |steps| ==> Ours(s0, steps[i])
    ensures Inv(world, s1) && Stretch(s0, s1)
  {
    var states :| Along(world, states, steps, s0, s1);
    StretchTo(world, states, steps, |steps|);
    RunKeepsInv(world, s0, steps, s1);
  }

  // ------------------------------------------------- what a stretch leaves --

  function TxnKey(t: Txn): Option<string> {
    t.eventId
  }

  function EventKey(e: Event): Option<string> {
    Some(e.id)
  }

  lemma {:induction false} EventTxnsDistinct(txns: seq<Txn>)
    requires Unique(txns)
    ensures Distinct(EventTxns(txns), TxnKey)
  {
    if txns != [] {
      var n := |txns| - 1;
      EventTxnsDistinct(txns[..n]);
      forall t | t in EventTxns(txns[..n]) && txns[n].eventId.Some? ensures TxnKey(t) != TxnKey(txns[n]) {
        var i :| 0 <= i < n && txns[i] == t;
      }
    }
  }

  lemma {:induction false} FirstsFrom(events: seq<Event>)
    ensures forall e :: e in Firsts(events) ==> e in events
  {
    if events != [] {
      FirstsFrom(events[..|events| - 1]);
    }
  }

  lemma {:induction false} FirstsApart(events: seq<Event>)
    ensures forall i, j :: 0 <= i < j < |Firsts(events)| ==> !Blocks(Firsts(events)[i], Firsts(events)[j])
  {
    if events != [] {
      FirstsApart(events[..|events| - 1]);
      var earlier := Firsts(events[..|events| - 1]);
      assert forall i :: 0 <= i < |earlier| ==> earlier[i] in earlier;
    }
  }

  lemma {:induction false} FirstsCover(events: seq<Event>, e: Event)
    requires e in events
    ensures BlockedBy(Firsts(events), e)
  {
    var n := |events| - 1;
    var earlier := Firsts(events[..n]);
    if e in events[..n] {
      FirstsCover(events[..n], e);
      var f :| f in earlier && Blocks(f, e);
      assert f in Firsts(events);
    } else {
      assert e == events[n];
      if !BlockedBy(earlier, e) {
        assert e in earlier + [e] && Blocks(e, e);
      }
    }
  }

  lemma {:induction false} MoneyDistinct<K(!new)>(fees: Event -> int, events: seq<Event>, key: Event -> K)
    requires Distinct(events, key)
    ensures Distinct(Money(fees, events), key)
  {
    if events != [] {
      var n := |events| - 1;
      MoneyDistinct(fees, events[..n], key);
      forall e | e in Money(fees, events[..n]) ensures key(e) != key(events[n]) {
        var i :| 0 <= i < n && events[i] == e;
      }
    }
  }

  /** Every row of the stretch carries a worker's verdict, and none is 'failed'. */
  predicate SettledRows(s0: State, s1: State) {
    forall id | id in s1.rows :: id !in s0.rows ==> s1.rows[id].status in {Processed, NoMoneyMoved}
  }

  function Appended(s0: State, s1: State): seq<Txn>
    requires s0.ledger <= s1.ledger
  {
    s1.ledger[|s0.ledger|..]
  }

  /** A transaction the stretch appended belongs to one of its money firsts ... */
  lemma {:induction false} AppendedIsFirst(world: World, s0: State, s1: State, t: Txn)
    requires Inv(world, s1) && Stretch(s0, s1)
    requires t in EventTxns(Appended(s0, s1))
    ensures exists f :: f in MoneyFirsts(world.fees, Since(s0, s1)) && EventKey(f) == TxnKey(t) && t == MoveOf(world.fees, f)
  {
    assert t in Appended(s0, s1) && t in s1.ledger;
    assert TxnFits(world, s1, t);
    var f := s1.rows[t.eventId.value].payload;
    assert f in Firsts(Since(s0, s1));
  }

  /** A settled row whose event moves money has posted it. */
  lemma {:induction false} SettledPosted(world: World, s: State, f: Event)
    requires Inv(world, s) && HasRow(s, f) && Moves(world.fees, f)
    requires s.rows[f.id].status in {Processed, NoMoneyMoved}
    ensures exists t :: t in s.ledger && TxnKey(t) == EventKey(f) && t == MoveOf(world.fees, f)
  {
    assert StatusFits(world, s, f.id);
    assert s.rows[f.id].status == Processed;
    var t :| t in s.ledger && Matches(t, f);
    MatchIsOwn(world, s, t, f.id);
  }

  lemma {:induction false} OldTxnsOldRows(world: World, s: State)
    requires Inv(world, s)
    ensures forall t :: t in s.ledger && t.eventId.Some? ==> t.eventId.value in s.rows
  {
    forall t | t in s.ledger && t.eventId.Some? ensures t.eventId.value in s.rows {
      assert TxnFits(world, s, t);
    }
  }

  /** ... and each money first, once settled, has its transaction. */
  lemma {:induction false} FirstIsAppended(world: World, s0: State, s1: State, f: Event)
    requires Inv(world, s0) && Inv(world, s1) && Stretch(s0, s1) && SettledRows(s0, s1)
    requires f in MoneyFirsts(world.fees, Since(s0, s1))
    ensures exists t :: t in EventTxns(Appended(s0, s1)) && TxnKey(t) == EventKey(f) && t == MoveOf(world.fees, f)
  {
    hide Inv;
    assert HasRow(s1, f) && f.id !in s0.rows && Moves(world.fees, f);
    SettledPosted(world, s1, f);
    var t :| t in s1.ledger && TxnKey(t) == EventKey(f) && t == MoveOf(world.fees, f);
    OldTxnsOldRows(world, s0);
    assert s1.ledger == s0.ledger + Appended(s0, s1);
  }

  ghost predicate SameMovements(fees: Event -> int, txns: seq<Txn>, events: seq<Event>) {
    && |txns| == |events|
    && Distinct(txns, TxnKey) && Distinct(events, EventKey)
    && (forall t :: t in txns ==> exists f :: f in events && Moves(fees, f) && t == MoveOf(fees, f))
    && (forall f :: f in events ==> exists t :: t in txns && Moves(fees, f) && t == MoveOf(fees, f))
  }

  lemma {:induction false} AppendedDistinct(world: World, s0: State, s1: State)
    requires Inv(world, s1) && s0.ledger <= s1.ledger
    ensures Distinct(EventTxns(Appended(s0, s1)), TxnKey)
  {
    forall i, j | 0 <= i < j < |Appended(s0, s1)| ensures
      && Appended(s0, s1)[i].id != Appended(s0, s1)[j].id
      && !SameEventId(Appended(s0, s1)[i], Appended(s0, s1)[j])
      && !SameObjectKey(Appended(s0, s1)[i], Appended(s0, s1)[j])
    {
      assert Appended(s0, s1)[i] == s1.ledger[|s0.ledger| + i];
      assert Appended(s0, s1)[j] == s1.ledger[|s0.ledger| + j];
    }
    EventTxnsDistinct(Appended(s0, s1));
  }

  lemma {:induction false} BalancesAgree(world: World, s0: State, s1: State, a: Account)
    requires Inv(world, s0) && Inv(world, s1) && Stretch(s0, s1) && SettledRows(s0, s1)
    ensures SameMovements(world.fees, EventTxns(Appended(s0, s1)), MoneyFirsts(world.fees, Since(s0, s1)))
    ensures NetChange(a, EventTxns(Appended(s0, s1))) == ExpectedChange(world.fees, a, Since(s0, s1))
  {
    var txns, events := EventTxns(Appended(s0, s1)), MoneyFirsts(world.fees, Since(s0, s1));
    AppendedDistinct(world, s0, s1);
    FirstsApart(Since(s0, s1));
    MoneyDistinct(world.fees, Firsts(Since(s0, s1)), EventKey);
    forall t | t in txns ensures exists f :: f in events && EventKey(f) == TxnKey(t) && t == MoveOf(world.fees, f) {
      AppendedIsFirst(world, s0, s1, t);
    }
    forall f | f in events ensures exists t :: t in txns && TxnKey(t) == EventKey(f) && t == MoveOf(world.fees, f) {
      FirstIsAppended(world, s0, s1, f);
    }
    SumsAgree(world.fees, txns, events, a);
  }

  lemma {:induction false} SumsAgree(fees: Event -> int, txns: seq<Txn>, events: seq<Event>, a: Account)
    requires Distinct(txns, TxnKey) && Distinct(events, EventKey)
    requires forall e :: e in events ==> Moves(fees, e)
    requires forall t :: t in txns ==> exists f :: f in events && EventKey(f) == TxnKey(t) && t == MoveOf(fees, f)
    requires forall f :: f in events ==> exists t :: t in txns && TxnKey(t) == EventKey(f) && t == MoveOf(fees, f)
    ensures |txns| == |events|
    ensures NetChange(a, txns) == Sum(events, (e: Event) => Effect(fees, a, e))
  {
    forall k ensures Carries(txns, TxnKey, k) <==> Carries(events, EventKey, k) {
      if i :| 0 <= i < |txns| && TxnKey(txns[i]) == k {
        assert txns[i] in txns;
        var f :| f in events && EventKey(f) == k;
      }
      if i :| 0 <= i < |events| && EventKey(events[i]) == k {
        assert events[i] in events;
        var t :| t in txns && TxnKey(t) == k;
      }
    }
    forall i, j | 0 <= i < |txns| && 0 <= j < |events| && TxnKey(txns[i]) == EventKey(events[j])
      ensures Balance(a, txns[i].entries) == Effect(fees, a, events[j])
    {
      assert txns[i] in txns;
      var f :| f in events && EventKey(f) == TxnKey(txns[i]) && txns[i] == MoveOf(fees, f);
      var p :| 0 <= p < |events| && events[p] == f;
      assert p == j;
    }
    SumByKey(txns, events, TxnKey, EventKey,
      (t: Txn) => Balance(a, t.entries), (e: Event) => Effect(fees, a, e));
  }

  function ExpectedWithRepairs(fees: Event -> int, a: Account, s0: State, s1: State): int
    requires s0.ledger <= s1.ledger && s0.received <= s1.received
  {
    ExpectedChange(fees, a, Since(s0, s1)) + NetChange(a, Repairs(Appended(s0, s1)))
  }

  /** Settling: over any stretch of any interleaving with crashes, redeliveries,
      redrives and approved repairs, starting from a quiet state on events no
      earlier row stands for, once every row of the stretch is settled the ledger
      has grown by exactly one transaction per distinct money movement received,
      under the id of the first event to bring it, and by the approved repairs. */
  lemma {:induction false} Settles(world: World, s0: State, steps: seq<Step>, s1: State)
    requires Inv(world, s0) && Quiet(s0) && Run(world, s0, steps, s1)
    requires forall i :: 0 <= i < |steps| ==> Ours(s0, steps[i])
    requires SettledRows(s0, s1)
    ensures s0.ledger <= s1.ledger && s0.received <= s1.received
    ensures SameMovements(world.fees, EventTxns(Appended(s0, s1)), MoneyFirsts(world.fees, Since(s0, s1)))
    ensures forall a :: NetChange(a, Appended(s0, s1)) == ExpectedWithRepairs(world.fees, a, s0, s1)
  {
    StretchRun(world, s0, steps, s1);
    BalancesAgree(world, s0, s1, StripeBalance);
    forall a ensures NetChange(a, Appended(s0, s1)) == ExpectedWithRepairs(world.fees, a, s0, s1) {
      BalancesAgree(world, s0, s1, a);
      NetChangeSplits(a, Appended(s0, s1));
    }
  }

  /** Every event the stretch received was answered 200. */
  ghost predicate AllAnswered(s0: State, s1: State) {
    forall e :: e in s1.received && e !in s0.received ==> exists a :: a in s1.answers && a.event == e
  }

  /** What an operator can look up: no new row is 'failed', and none whose
      dead-letter write was refused is still open. */
  predicate Clear(s0: State, s1: State) {
    forall id | id in s1.rows :: id !in s0.rows ==>
      && s1.rows[id].status != Failed
      && (id in s1.stranded ==> Terminal(s1.rows[id].status))
  }

  /** A new row of a drained state that is still open reads 'queued' and is
      stranded. */
  lemma {:induction false} OpenRowIsStranded(world: World, s0: State, s1: State, id: string)
    requires Inv(world, s0) && Inv(world, s1) && Stretch(s0, s1) && Quiet(s1) && AllAnswered(s0, s1)
    requires id in s1.rows && id !in s0.rows && !Terminal(s1.rows[id].status)
    ensures s1.rows[id].status == Queued && id in s1.stranded
  {
    var f := s1.rows[id].payload;
    NewRowNewlyReceived(world, s0, s1, id);
    var a :| a in s1.answers && a.event == f;
    AnsweredLeft(world, s1, a, id);
    QuietHasNoLive(s1, f);
    assert StatusFits(world, s1, id);
  }

  /** A drained state in which every event was answered 200 is settled exactly when
      its new rows are clear, however often a dead-letter write failed on the way:
      what a redelivery has put right since does not count. */
  lemma {:induction false} DrainedSettles(world: World, s0: State, steps: seq<Step>, s1: State)
    requires Inv(world, s0) && Quiet(s0) && Run(world, s0, steps, s1)
    requires forall i :: 0 <= i < |steps| ==> Ours(s0, steps[i])
    requires AllAnswered(s0, s1) && Quiet(s1)
    ensures SettledRows(s0, s1) <==> Clear(s0, s1)
    ensures forall id :: id in s1.rows && id !in s0.rows && !Terminal(s1.rows[id].status) ==>
      s1.rows[id].status == Queued && id in s1.stranded
  {
    StretchRun(world, s0, steps, s1);
    forall id | id in s1.rows && id !in s0.rows && !Terminal(s1.rows[id].status)
      ensures s1.rows[id].status == Queued && id in s1.stranded
    {
      OpenRowIsStranded(world, s0, s1, id);
    }
  }

  lemma {:induction false} QuietHasNoLive(s: State, e: Event)
    requires Quiet(s)
    ensures !Live(s, e)
  {
  }

  lemma {:induction false} NewRowNewlyReceived(world: World, s0: State, s1: State, id: string)
    requires Inv(world, s0) && Inv(world, s1) && Stretch(s0, s1) && id in s1.rows && id !in s0.rows
    ensures s1.rows[id].payload in s1.received && s1.rows[id].payload !in s0.received
  {
    var f := s1.rows[id].payload;
    assert forall e :: e in s0.received ==> Collides(s0.rows, e);
    assert forall other :: other in s0.rows ==> other in s1.rows && s1.rows[other].payload == s0.rows[other].payload;
  }

  /** A 200 for the event of a row means that very row has left 'received'. */
  lemma {:induction false} AnsweredLeft(world: World, s: State, a: Answer, id: string)
    requires Inv(world, s) && a in s.answers && id in s.rows && s.rows[id].payload == a.event
    ensures s.rows[id].status != Received
  {
    var other :| AnswerRow(s, a, other);
    assert other == id;
  }

  // --------------------------------------------------------- convergence --

  datatype MovementKey = ByObject(etype: EventType, objectId: string) | ById(id: string)

  /** The identity of a money movement. */
  function MovementKeyOf(e: Event): MovementKey {
    if MoneyObjectId(e).Some? then ByObject(e.etype, MoneyObjectId(e).value) else ById(e.id)
  }

  lemma {:induction false} BlocksIsSameKey(world: World, a: Event, b: Event)
    requires Coherent(world) && a in world.universe && b in world.universe
    ensures Blocks(a, b) <==> MovementKeyOf(a) == MovementKeyOf(b)
  {
  }

  ghost predicate Within(world: World, events: seq<Event>) {
    forall e :: e in events ==> e in world.universe
  }

  lemma {:induction false} FirstsKeysDistinct(world: World, events: seq<Event>)
    requires Coherent(world) && Within(world, events)
    ensures Distinct(MoneyFirsts(world.fees, events), MovementKeyOf)
  {
    var firsts := Firsts(events);
    FirstsApart(events);
    FirstsFrom(events);
    forall i, j | 0 <= i < j < |firsts| ensures MovementKeyOf(firsts[i]) != MovementKeyOf(firsts[j]) {
      assert firsts[i] in firsts && firsts[j] in firsts;
      BlocksIsSameKey(world, firsts[i], firsts[j]);
    }
    MoneyDistinct(world.fees, firsts, MovementKeyOf);
  }

  ghost predicate Brings(fees: Event -> int, events: seq<Event>, k: MovementKey) {
    exists e :: e in events && Moves(fees, e) && MovementKeyOf(e) == k
  }

  lemma {:induction false} FirstsKeys(world: World, events: seq<Event>, k: MovementKey)
    requires Coherent(world) && Within(world, events)
    ensures Carries(MoneyFirsts(world.fees, events), MovementKeyOf, k) <==> Brings(world.fees, events, k)
  {
    var money := MoneyFirsts(world.fees, events);
    FirstsFrom(events);
    if i :| 0 <= i < |money| && MovementKeyOf(money[i]) == k {
      assert money[i] in money && money[i] in events;
    }
    if e :| e in events && Moves(world.fees, e) && MovementKeyOf(e) == k {
      FirstsCover(events, e);
      var f :| f in Firsts(events) && Blocks(f, e);
      MovesAlike(world, f, e);
      assert f in money;
    }
  }

  lemma {:induction false} MovesAlike(world: World, a: Event, b: Event)
    requires Coherent(world) && a in world.universe && b in world.universe && Blocks(a, b)
    ensures Moves(world.fees, a) == Moves(world.fees, b) && MovementKeyOf(a) == MovementKeyOf(b)
    ensures Moves(world.fees, a) ==> MoveOf(world.fees, a).entries == MoveOf(world.fees, b).entries
  {
    if a.id == b.id {
      assert a == b;
    } else {
      assert SameObject(a, b);
    }
  }

  /** The reference total depends on which events were delivered, not on their
      order or on how often each came. */
  lemma {:induction false} OrderIrrelevant(world: World, xs: seq<Event>, ys: seq<Event>, a: Account)
    requires Coherent(world) && Within(world, xs) && Within(world, ys)
    requires forall e :: e in xs <==> e in ys
    ensures ExpectedChange(world.fees, a, xs) == ExpectedChange(world.fees, a, ys)
  {
    var mx, my := MoneyFirsts(world.fees, xs), MoneyFirsts(world.fees, ys);
    FirstsKeysDistinct(world, xs);
    FirstsKeysDistinct(world, ys);
    forall k ensures Carries(mx, MovementKeyOf, k) <==> Carries(my, MovementKeyOf, k) {
      FirstsKeys(world, xs, k);
      FirstsKeys(world, ys, k);
    }
    FirstsFrom(xs);
    FirstsFrom(ys);
    forall i, j | 0 <= i < |mx| && 0 <= j < |my| && MovementKeyOf(mx[i]) == MovementKeyOf(my[j])
      ensures Effect(world.fees, a, mx[i]) == Effect(world.fees, a, my[j])
    {
      assert mx[i] in mx && my[j] in my;
      BlocksIsSameKey(world, mx[i], my[j]);
      MovesAlike(world, mx[i], my[j]);
    }
    SumByKey(mx, my, MovementKeyOf, MovementKeyOf,
      (e: Event) => Effect(world.fees, a, e), (e: Event) => Effect(world.fees, a, e));
  }

  /** Convergence: whatever the delivery order, duplication, twin ids, crashes
      and redeliveries, every drained state in which each event received was
      answered 200, no row failed and no stranded row is still open has the
      balances of the events themselves, each distinct movement counted once, plus
      the approved repairs. events is any listing of what was received. */
  lemma {:induction false} Convergence(world: World, workers: nat, steps: seq<Step>, s: State, events: seq<Event>, a: Account)
    requires Coherent(world) && Run(world, Start(workers), steps, s)
    requires Quiet(s) && AllAnswered(Start(workers), s) && Clear(Start(workers), s)
    requires forall e :: e in events <==> e in s.received
    ensures Balance(a, AllEntries(s.ledger)) ==
      ExpectedChange(world.fees, a, events) + NetChange(a, Repairs(s.ledger))
  {
    var s0 := Start(workers);
    StartInv(world, workers);
    DrainedSettles(world, s0, steps, s);
    Settles(world, s0, steps, s);
    RunKeepsInv(world, s0, steps, s);
    assert Since(s0, s) == s.received && Appended(s0, s) == s.ledger;
    OrderIrrelevant(world, events, s.received, a);
    BalanceOfLedger(a, s.ledger);
  }
}
