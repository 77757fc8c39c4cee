/** What every step of the protocol keeps. */
module Invariant {
  import opened Wrappers
  import opened Ledger
  import opened Mapping
  import opened Protocol

  /** t is e's money movement: its own transaction, or one for the same object. */
  predicate Matches(t: Txn, e: Event) {
    t.eventId == Some(e.id) || (t.etype == Some(e.etype) && t.objectId.Some? && t.objectId == MoneyObjectId(e))
  }

  predicate Covered(ledger: seq<Txn>, e: Event) {
    exists t | t in ledger :: Matches(t, e)
  }

  /** A worker still owes e a status: its message is queued, or held and not yet
      down to the acknowledgement. */
  predicate Holds(slot: Slot, e: Event) {
    slot.Busy? && !slot.pc.Acking? && slot.msg.event == e
  }

  ghost predicate Live(s: State, e: Event) {
    (exists m :: m in s.ready && m.event == e) || (exists slot :: slot in s.slots && Holds(slot, e))
  }

  predicate HasRow(s: State, e: Event) {
    e.id in s.rows && s.rows[e.id].payload == e
  }

  // --- the event log ---

  ghost predicate RowsInv(world: World, s: State) {
    && (forall e :: e in s.received ==> e in world.universe)
    && (forall id :: id in s.rows ==> s.rows[id].payload.id == id && s.rows[id].payload in s.received)
    && (forall a, b :: a in s.rows && b in s.rows && SameObject(s.rows[a].payload, s.rows[b].payload) ==> a == b)
    && (forall e :: e in s.received ==> Collides(s.rows, e))
  }

  // --- every request and message carries the payload of a row ---

  ghost predicate ReqFits(s: State, q: Req) {
    match q
    case Looking(e) => Collides(s.rows, e)
    case Enqueueing(e, target) => HasRow(s, target) && Blocks(target, e)
    case Marking(e, target) =>
      && HasRow(s, target) && Blocks(target, e)
      && (s.rows[target.id].status == Received ==> Live(s, target) || target.id in s.stranded)
    case Closed => true
  }

  ghost predicate SlotFits(world: World, s: State, slot: Slot) {
    slot.Busy? ==>
      var e := slot.msg.event;
      && HasRow(s, e) && slot.msg.retries <= MAX_RETRIES
      && match slot.pc
         case Posting(attempt) => Moves(world.fees, e) && 1 <= attempt <= MAX_POST_ATTEMPTS
         case MarkingProcessed => Covered(s.ledger, e)
         case MarkingNoMoney => NoMoney(world.fees, e)
         case DeadLettering => slot.msg.retries == MAX_RETRIES
         case _ => true
  }

  ghost predicate TrafficInv(world: World, s: State) {
    && (forall m :: m in s.ready ==> HasRow(s, m.event) && m.retries <= MAX_RETRIES)
    && (forall q :: q in s.reqs ==> ReqFits(s, q))
    && (forall slot :: slot in s.slots ==> SlotFits(world, s, slot))
  }

  // --- the ledger ---

  ghost predicate TxnFits(world: World, s: State, t: Txn) {
    && Commits(t.entries)
    && match t.eventId
       case Some(id) =>
         && id in s.rows && Moves(world.fees, s.rows[id].payload)
         && t == MoveOf(world.fees, s.rows[id].payload)
       case None => t.objectId.None? && t.id.Minted?
  }

  ghost predicate Unique(ledger: seq<Txn>) {
    forall i, j :: 0 <= i < j < |ledger| ==>
      && ledger[i].id != ledger[j].id
      && !SameEventId(ledger[i], ledger[j])
      && !SameObjectKey(ledger[i], ledger[j])
  }

  ghost predicate LedgerInv(world: World, s: State) {
    && (forall t :: t in s.ledger ==> TxnFits(world, s, t))
    && Unique(s.ledger)
  }

  // --- statuses tell the truth, and a queued row is owed a worker ---

  ghost predicate StatusFits(world: World, s: State, id: string)
    requires id in s.rows
  {
    var e := s.rows[id].payload;
    match s.rows[id].status
    case Received => true
    case Queued => Live(s, e) || id in s.stranded
    case Processed => Covered(s.ledger, e)
    case NoMoneyMoved => NoMoney(world.fees, e)
    case Failed => true
  }

  ghost predicate StatusInv(world: World, s: State) {
    forall id :: id in s.rows ==> StatusFits(world, s, id)
  }

  // --- a 200 is given only for a row that has left 'received' ---

  predicate AnswerRow(s: State, a: Answer, id: string) {
    && id in s.rows && Blocks(s.rows[id].payload, a.event) && s.rows[id].status != Received
    && (a.duplicate ==> Terminal(s.rows[id].status))
  }

  ghost predicate AnswerInv(s: State) {
    forall a :: a in s.answers ==> exists id :: AnswerRow(s, a, id)
  }

  ghost predicate Inv(world: World, s: State) {
    && RowsInv(world, s)
    && TrafficInv(world, s)
    && LedgerInv(world, s)
    && StatusInv(world, s)
    && AnswerInv(s)
  }

  // ------------------------------------------------------ what steps keep --

  /** Rows are never dropped, their payloads never change, and a status a worker
      wrote is never taken back to 'received' or 'queued'. */
  ghost predicate RowsAdvance(s1: State, s2: State) {
    forall id :: id in s1.rows ==>
      && id in s2.rows && s2.rows[id].payload == s1.rows[id].payload
      && (Terminal(s1.rows[id].status) ==> Terminal(s2.rows[id].status))
      && (s1.rows[id].status != Received ==> s2.rows[id].status != Received)
  }

  predicate IngestStep(step: Step) {
    step.Insert? || step.LookUp? || step.Enqueue? || step.EnqueueRaises? || step.MarkQueued? || step.IngestCrash?
  }

  ghost predicate Advances(s1: State, s2: State) {
    RowsAdvance(s1, s2) && s1.ledger <= s2.ledger && s1.received <= s2.received && s1.stranded <= s2.stranded
  }

  lemma {:induction false} IngestAdvances(world: World, s: State, step: Step)
    requires Can(world, s, step) && IngestStep(step)
    ensures Advances(s, Apply(world, s, step))
  {
  }

  lemma {:induction false} PostAdvances(world: World, s: State, step: Step)
    requires Can(world, s, step) && step.Post?
    ensures Advances(s, Apply(world, s, step))
  {
    hide MoveOf, Moves;
    AttemptAppends(s.ledger, MoveOf(world.fees, s.slots[step.w].msg.event), step.fault);
  }

  lemma {:induction false} OtherAdvances(world: World, s: State, step: Step)
    requires Can(world, s, step) && !IngestStep(step) && !step.Post? && !step.MarkDone? && !step.DeadLetter?
    ensures Advances(s, Apply(world, s, step))
  {
  }

  lemma {:induction false} MarkAdvances(world: World, s: State, step: Step)
    requires Can(world, s, step) && (step.MarkDone? || step.DeadLetter?)
    ensures Advances(s, Apply(world, s, step))
  {
    hide MoveOf, Moves;
  }

  lemma {:induction false} StepAdvances(world: World, s: State, step: Step)
    requires Can(world, s, step)
    ensures RowsAdvance(s, Apply(world, s, step))
    ensures s.ledger <= Apply(world, s, step).ledger
    ensures s.received <= Apply(world, s, step).received
    ensures s.stranded <= Apply(world, s, step).stranded
  {
    hide Apply, Can, RowsAdvance;
    if IngestStep(step) {
      IngestAdvances(world, s, step);
    } else if step.Post? {
      PostAdvances(world, s, step);
    } else if step.MarkDone? || step.DeadLetter? {
      MarkAdvances(world, s, step);
    } else {
      OtherAdvances(world, s, step);
    }
  }

  /** What a step may do to an open request. */
  lemma {:induction false} ReqsChange(world: World, s: State, step: Step)
    requires Can(world, s, step)
    ensures var reqs := Apply(world, s, step).reqs;
      && |reqs| == (if step.Insert? then |s.reqs| + 1 else |s.reqs|)
      && forall r :: 0 <= r < |s.reqs| ==>
           reqs[r] == s.reqs[r] || reqs[r].Closed? || ((step.LookUp? || step.Enqueue?) && step.r == r)
  {
  }

  /** The slot a step works on. */
  function SlotOf(step: Step): Option<nat> {
    match step
    case Take(_, w) => Some(w)
    case Begin(w, _) => Some(w)
    case Post(w, _) => Some(w)
    case MarkDone(w, _) => Some(w)
    case Fail(w) => Some(w)
    case DeadLetter(w, _) => Some(w)
    case Ack(w) => Some(w)
    case _ => None
  }

  /** What a step may do to a worker. */
  lemma {:induction false} SlotsChange(world: World, s: State, step: Step)
    requires Can(world, s, step)
    ensures var slots := Apply(world, s, step).slots;
      && |slots| == |s.slots|
      && forall w :: 0 <= w < |s.slots| ==> slots[w] == s.slots[w] || slots[w].Idle? || SlotOf(step) == Some(w)
  {
  }

  lemma {:induction false} CoveredGrows(l1: seq<Txn>, l2: seq<Txn>, e: Event)
    requires l1 <= l2 && Covered(l1, e)
    ensures Covered(l2, e)
  {
    var t :| t in l1 && Matches(t, e);
    assert t in l2;
  }

  /** Only the insert adds a row, because every message a worker holds belongs to
      a row already. */
  lemma {:induction false} RowChange(world: World, s: State, step: Step)
    requires Inv(world, s) && Can(world, s, step)
    ensures var s2 := Apply(world, s, step);
      forall id :: id in s2.rows && id !in s.rows ==>
        step.Insert? && !Collides(s.rows, step.e) && id == step.e.id && s2.rows[id] == Row(step.e, Received)
  {
    if step.MarkDone? || step.DeadLetter? {
      assert s.slots[step.w] in s.slots;
    }
  }

  lemma {:induction false} OnlyInsertReceives(world: World, s: State, step: Step)
    requires Can(world, s, step) && !step.Insert?
    ensures Apply(world, s, step).received == s.received
  {
  }

  lemma {:induction false} InsertRowsStep(world: World, s: State, e: Event)
    requires RowsInv(world, s) && Can(world, s, Insert(e))
    ensures RowsInv(world, Apply(world, s, Insert(e)))
  {
    var s2 := Apply(world, s, Insert(e));
    IngestAdvances(world, s, Insert(e));
    forall x | x in s2.received ensures Collides(s2.rows, x) {
      if x in s.received {
        CollidesGrows(s, s2, x);
      }
    }
  }

  lemma {:induction false} RowsStep(world: World, s: State, step: Step)
    requires Inv(world, s) && Can(world, s, step)
    ensures RowsInv(world, Apply(world, s, step))
  {
    hide Apply, Can, TrafficInv, LedgerInv, StatusInv, AnswerInv;
    if step.Insert? {
      InsertRowsStep(world, s, step.e);
    } else {
      var s2 := Apply(world, s, step);
      StepAdvances(world, s, step);
      RowChange(world, s, step);
      OnlyInsertReceives(world, s, step);
      forall e | e in s2.received ensures Collides(s2.rows, e) {
        CollidesGrows(s, s2, e);
      }
    }
  }

  lemma {:induction false} CollidesGrows(s1: State, s2: State, e: Event)
    requires RowsAdvance(s1, s2) && Collides(s1.rows, e)
    ensures Collides(s2.rows, e)
  {
    if e.id !in s1.rows {
      var id :| id in s1.rows && SameObject(s1.rows[id].payload, e);
      assert id in s2.rows;
    }
  }

  predicate NamesEvent(t: Txn, e: Event) {
    t.id == OfEvent(e.id) && t.eventId == Some(e.id) && t.etype == Some(e.etype) && t.objectId == MoneyObjectId(e)
  }

  lemma {:induction false} MoveNamesEvent(fees: Event -> int, e: Event)
    requires Moves(fees, e)
    ensures NamesEvent(MoveOf(fees, e), e)
  {
  }

  predicate IdAgrees(t: Txn) {
    t.id.OfEvent? ==> t.eventId == Some(t.id.eventId)
  }

  lemma {:induction false} IdsAgree(world: World, s: State)
    requires RowsInv(world, s) && LedgerInv(world, s)
    ensures forall t :: t in s.ledger ==> IdAgrees(t)
  {
    forall t | t in s.ledger ensures IdAgrees(t) {
      assert TxnFits(world, s, t);
      if t.eventId.Some? {
        MoveNamesEvent(world.fees, s.rows[t.eventId.value].payload);
      }
    }
  }

  /** A violation of any of the three unique keys means the movement is there. */
  lemma {:induction false} ConflictMeansCovered(ledger: seq<Txn>, t: Txn, e: Event)
    requires NamesEvent(t, e) && Conflict(ledger, t).Some?
    requires forall u :: u in ledger ==> IdAgrees(u)
    ensures Covered(ledger, e)
  {
    if u :| u in ledger && u.id == t.id {
      assert IdAgrees(u) && Matches(u, e);
    } else if u :| u in ledger && SameEventId(t, u) {
      assert Matches(u, e);
    } else {
      var u :| u in ledger && SameObjectKey(t, u);
      assert Matches(u, e);
    }
  }

  /** One attempt appends its transaction only if it meets no unique key and the
      triggers accept it; otherwise it leaves the ledger alone. */
  lemma {:induction false} AttemptAppends(ledger: seq<Txn>, t: Txn, fault: DbFault)
    ensures var (after, outcome) := Attempt(ledger, t, fault);
      || (after == ledger && outcome != Posted)
      || (after == ledger + [t] && Conflict(ledger, t).None? && Commits(t.entries))
    ensures Attempt(ledger, t, fault).1 in {Duplicate, PkeyViolation} ==> Conflict(ledger, t).Some?
  {
  }

  predicate TakesId(ledger: seq<Txn>, t: Txn) {
    exists u | u in ledger :: u.id == t.id
  }

  predicate TakesEventOrObject(ledger: seq<Txn>, t: Txn) {
    exists u | u in ledger ::
      || (t.eventId.Some? && u.eventId == t.eventId)
      || (t.etype.Some? && u.etype == t.etype && t.objectId.Some? && u.objectId == t.objectId)
  }

  /** What an attempt reports, and when: posted exactly if nothing went wrong at all; a
      duplicate or a primary key violation only over a row that stands there; a conflict
      only from the database; and everything else raises, a reply lost after the commit
      among it. */
  lemma {:induction false} AttemptTells(ledger: seq<Txn>, t: Txn, fault: DbFault)
    ensures var (after, outcome) := Attempt(ledger, t, fault);
      var listed := forall e :: e in t.entries ==> Listed(e.account);
      var free := !TakesId(ledger, t) && !TakesEventOrObject(ledger, t);
      && (outcome == SerializationFailure <==> fault == SerializationConflict)
      && (outcome == PkeyViolation <==> fault in {Fine, LostAfterCommit} && listed && TakesId(ledger, t))
      && (outcome == Duplicate <==>
            fault in {Fine, LostAfterCommit} && listed && !TakesId(ledger, t) && TakesEventOrObject(ledger, t))
      && (outcome == Posted <==> fault == Fine && free && Commits(t.entries))
      && (after == ledger + [t] <==> fault in {Fine, LostAfterCommit} && free && Commits(t.entries))
      && (after == ledger || after == ledger + [t])
  {
    hide BalancedPerCurrency;
    assert |ledger + [t]| == |ledger| + 1;
  }

  /** The transaction a step may commit. */
  ghost function Candidate(world: World, s: State, step: Step): Option<Txn>
    requires Can(world, s, step)
  {
    match step
    case Post(w, _) => Some(MoveOf(world.fees, s.slots[w].msg.event))
    case Approve(t) => Some(t)
    case _ => None
  }

  /** A step leaves the ledger alone or appends one transaction that fits and
      meets no other on any unique key. */
  lemma {:induction false} LedgerChange(world: World, s: State, step: Step)
    requires Inv(world, s) && Can(world, s, step)
    ensures var s2 := Apply(world, s, step);
      s2.ledger == s.ledger ||
      (Candidate(world, s, step).Some? &&
       var t := Candidate(world, s, step).value;
       s2.ledger == s.ledger + [t] && Conflict(s.ledger, t).None? && TxnFits(world, s, t))
  {
    if step.Post? {
      var slot := s.slots[step.w];
      assert slot in s.slots;
      assert SlotFits(world, s, slot);
      var e := slot.msg.event;
      MoveNamesEvent(world.fees, e);
      AttemptAppends(s.ledger, MoveOf(world.fees, e), step.fault);
    }
  }

  lemma {:induction false} UniqueAppend(ledger: seq<Txn>, t: Txn)
    requires Unique(ledger) && Conflict(ledger, t).None?
    ensures Unique(ledger + [t])
  {
    forall i | 0 <= i < |ledger|
      ensures ledger[i].id != t.id && !SameEventId(ledger[i], t) && !SameObjectKey(ledger[i], t)
    {
      assert ledger[i] in ledger;
    }
  }

  lemma {:induction false} FitsGrows(world: World, s1: State, s2: State, t: Txn)
    requires RowsAdvance(s1, s2) && TxnFits(world, s1, t)
    ensures TxnFits(world, s2, t)
  {
  }

  lemma {:induction false} LedgerStep(world: World, s: State, step: Step)
    requires Inv(world, s) && Can(world, s, step)
    ensures LedgerInv(world, Apply(world, s, step))
  {
    var s2 := Apply(world, s, step);
    StepAdvances(world, s, step);
    LedgerChange(world, s, step);
    forall t | t in s2.ledger ensures TxnFits(world, s2, t) {
      FitsGrows(world, s, s2, t);
    }
    if s2.ledger != s.ledger {
      UniqueAppend(s.ledger, Candidate(world, s, step).value);
    }
  }

  // -------------------------------------------- messages are not dropped --

  lemma {:induction false} HeldAt(s: State, e: Event, w: nat)
    requires w < |s.slots| && Holds(s.slots[w], e)
    ensures Live(s, e)
  {
    assert s.slots[w] in s.slots;
  }

  lemma {:induction false} QueuedAt(s: State, m: Msg)
    requires m in s.ready
    ensures Live(s, m.event)
  {
  }

  /** The dead-letter write of a message for the row is refused. */
  predicate LosesLetter(s: State, step: Step, id: string) {
    step.DeadLetter? && step.write.NotWritten? && AtSlot(s, step.w) && s.slots[step.w].msg.event.id == id
  }

  /** The message whose payload is e stays with the broker or a worker until e's
      row has a worker-written status, or the dead-letter write was refused. */
  lemma {:induction false} LiveUntilSettled(world: World, s: State, step: Step, e: Event)
    requires Can(world, s, step)
    requires Live(s, e) && HasRow(s, e)
    ensures var s2 := Apply(world, s, step);
      && HasRow(s2, e)
      && (Live(s2, e) || Terminal(s2.rows[e.id].status) || (LosesLetter(s, step, e.id) && e.id in s2.stranded))
  {
    hide Apply, Can;
    StepAdvances(world, s, step);
    if m :| m in s.ready && m.event == e {
      QueuedStaysLive(world, s, step, m);
    } else {
      var slot :| slot in s.slots && Holds(slot, e);
      var w :| 0 <= w < |s.slots| && s.slots[w] == slot;
      HeldUntilSettled(world, s, step, e, w);
    }
  }

  /** A queued message stays queued until a worker takes it up. */
  lemma {:induction false} QueuedStaysLive(world: World, s: State, step: Step, m: Msg)
    requires Can(world, s, step) && m in s.ready
    ensures Live(Apply(world, s, step), m.event)
  {
    hide MoveOf, Attempt, Marked;
    var s2 := Apply(world, s, step);
    if step.Take? && m !in s2.ready {
      assert m == s.ready[step.i];
      HeldAt(s2, m.event, step.w);
    } else {
      QueuedAt(s2, m);
    }
  }

  lemma {:induction false} HeldUntilSettled(world: World, s: State, step: Step, e: Event, w: nat)
    requires Can(world, s, step)
    requires w < |s.slots| && Holds(s.slots[w], e) && HasRow(s, e)
    ensures var s2 := Apply(world, s, step);
      || Live(s2, e) || (HasRow(s2, e) && Terminal(s2.rows[e.id].status))
      || (LosesLetter(s, step, e.id) && e.id in s2.stranded)
  {
    hide MoveOf, Attempt;
    var s2 := Apply(world, s, step);
    assert |s2.slots| == |s.slots|;
    if Holds(s2.slots[w], e) {
      HeldAt(s2, e, w);
    } else if step.WorkerCrash? || step.Fail? {
      QueuedAt(s2, s2.ready[|s.ready|]);
    }
  }

  /** A held message returns as it was, or with one more retry. */
  predicate Resent(slot: Slot, m: Msg) {
    && slot.Busy? && slot.msg.event == m.event
    && (m.retries == slot.msg.retries || m.retries == slot.msg.retries + 1 <= MAX_RETRIES)
  }

  /** Where a queued message came from, redrives apart. */
  ghost predicate SentBefore(s: State, m: Msg) {
    || m in s.ready
    || (exists q :: q in s.reqs && q.Enqueueing? && m == Msg(q.target, 0))
    || (exists slot :: slot in s.slots && Resent(slot, m))
  }

  lemma {:induction false} ReadyFrom(world: World, s: State, step: Step, m: Msg)
    requires Can(world, s, step) && m in Apply(world, s, step).ready
    ensures step.Redrive? || SentBefore(s, m)
  {
    if m !in s.ready {
      if step.Enqueue? || step.EnqueueRaises? {
        assert s.reqs[step.r] in s.reqs;
      } else if step.Fail? || step.WorkerCrash? || step.Redeliver? {
        assert s.slots[step.w] in s.slots;
      }
    }
  }

  lemma {:induction false} SentFits(world: World, s: State, m: Msg)
    requires TrafficInv(world, s) && SentBefore(s, m)
    ensures HasRow(s, m.event) && m.retries <= MAX_RETRIES
  {
    if slot :| slot in s.slots && Resent(slot, m) {
      assert SlotFits(world, s, slot);
    } else if q :| q in s.reqs && q.Enqueueing? && m == Msg(q.target, 0) {
      assert ReqFits(s, q);
    }
  }

  lemma {:induction false} ReadyStep(world: World, s: State, step: Step, m: Msg)
    requires Inv(world, s) && Can(world, s, step)
    requires m in Apply(world, s, step).ready
    ensures HasRow(s, m.event) && m.retries <= MAX_RETRIES
  {
    ReadyFrom(world, s, step, m);
    if !step.Redrive? {
      SentFits(world, s, m);
    }
  }

  /** A slot no step touches still fits: rows and ledger only grow. */
  lemma {:induction false} SlotFitsGrows(world: World, s1: State, s2: State, slot: Slot)
    requires RowsAdvance(s1, s2) && s1.ledger <= s2.ledger
    requires SlotFits(world, s1, slot)
    ensures SlotFits(world, s2, slot)
  {
    if slot.Busy? && slot.pc.MarkingProcessed? {
      CoveredGrows(s1.ledger, s2.ledger, slot.msg.event);
    }
  }

  /** Once the post reports posted, or a duplicate on any key, the movement is in
      the ledger. */
  lemma {:induction false} PostCovers(world: World, s: State, e: Event, fault: DbFault)
    requires RowsInv(world, s) && LedgerInv(world, s) && Moves(world.fees, e)
    requires Attempt(s.ledger, MoveOf(world.fees, e), fault).1 in {Posted, Duplicate, PkeyViolation}
    ensures Covered(Attempt(s.ledger, MoveOf(world.fees, e), fault).0, e)
  {
    var t := MoveOf(world.fees, e);
    MoveNamesEvent(world.fees, e);
    AttemptAppends(s.ledger, t, fault);
    var after := Attempt(s.ledger, t, fault).0;
    if after == s.ledger {
      IdsAgree(world, s);
      ConflictMeansCovered(s.ledger, t, e);
    } else {
      assert t in after && Matches(t, e);
    }
  }

  lemma {:induction false} SlotStep(world: World, s: State, step: Step, w: nat)
    requires Inv(world, s) && Can(world, s, step)
    requires w < |s.slots|
    ensures |Apply(world, s, step).slots| == |s.slots|
    ensures SlotFits(world, Apply(world, s, step), Apply(world, s, step).slots[w])
  {
    hide Apply, Can, RowsAdvance, RowsInv, LedgerInv;
    var s2 := Apply(world, s, step);
    StepAdvances(world, s, step);
    SlotsChange(world, s, step);
    assert SlotFits(world, s, s.slots[w]) by {
      assert s.slots[w] in s.slots;
    }
    if s2.slots[w] == s.slots[w] {
      SlotFitsGrows(world, s, s2, s.slots[w]);
    } else if !s2.slots[w].Idle? {
      OwnSlotFits(world, s, step);
    }
  }

  lemma {:induction false} OwnSlotFits(world: World, s: State, step: Step)
    requires Inv(world, s) && Can(world, s, step) && SlotOf(step).Some?
    ensures step.w < |Apply(world, s, step).slots|
    ensures SlotFits(world, Apply(world, s, step), Apply(world, s, step).slots[step.w])
  {
    hide RowsInv, LedgerInv, StatusInv, AnswerInv;
    SlotsChange(world, s, step);
    if step.Post? {
      PostFits(world, s, step);
    } else {
      StepAdvances(world, s, step);
      if step.Take? {
        assert s.ready[step.i] in s.ready;
      } else {
        assert SlotFits(world, s, s.slots[step.w]) by {
          assert s.slots[step.w] in s.slots;
        }
      }
    }
  }

  lemma {:induction false} PostFits(world: World, s: State, step: Step)
    requires Inv(world, s) && Can(world, s, step) && step.Post?
    ensures SlotFits(world, Apply(world, s, step), Apply(world, s, step).slots[step.w])
  {
    assert SlotFits(world, s, s.slots[step.w]) by {
      assert s.slots[step.w] in s.slots;
    }
    if Apply(world, s, step).slots[step.w].pc.MarkingProcessed? {
      PostCovers(world, s, s.slots[step.w].msg.event, step.fault);
    }
  }

  /** A request no step touches still fits. */
  lemma {:induction false} ReqFitsGrows(world: World, s: State, step: Step, q: Req)
    requires Inv(world, s) && Can(world, s, step) && ReqFits(s, q)
    ensures ReqFits(Apply(world, s, step), q)
  {
    var s2 := Apply(world, s, step);
    StepAdvances(world, s, step);
    match q
    case Looking(e) => CollidesGrows(s, s2, e);
    case Marking(e, target) =>
      if Live(s, target) {
        LiveUntilSettled(world, s, step, target);
      }
    case _ =>
  }

  lemma {:induction false} NewReqFits(world: World, s: State, e: Event)
    requires Inv(world, s) && Can(world, s, Insert(e))
    ensures var s2 := Apply(world, s, Insert(e)); ReqFits(s2, s2.reqs[|s.reqs|])
  {
    hide TrafficInv, LedgerInv, StatusInv, AnswerInv;
    StepAdvances(world, s, Insert(e));
    if Collides(s.rows, e) {
      CollidesGrows(s, Apply(world, s, Insert(e)), e);
    }
  }

  lemma {:induction false} MovedReqFits(world: World, s: State, step: Step)
    requires Inv(world, s) && Can(world, s, step) && (step.LookUp? || step.Enqueue?)
    ensures step.r < |Apply(world, s, step).reqs|
    ensures ReqFits(Apply(world, s, step), Apply(world, s, step).reqs[step.r])
  {
    hide LedgerInv, StatusInv, AnswerInv;
    var s2 := Apply(world, s, step);
    assert ReqFits(s, s.reqs[step.r]) by {
      assert s.reqs[step.r] in s.reqs;
    }
    if step.Enqueue? {
      QueuedAt(s2, Msg(s.reqs[step.r].target, 0));
    }
  }

  lemma {:induction false} ReqStep(world: World, s: State, step: Step, r: nat)
    requires Inv(world, s) && Can(world, s, step)
    requires r < |Apply(world, s, step).reqs|
    ensures ReqFits(Apply(world, s, step), Apply(world, s, step).reqs[r])
  {
    hide Apply, Can, RowsInv, LedgerInv, StatusInv, AnswerInv;
    ReqsChange(world, s, step);
    if r == |s.reqs| {
      NewReqFits(world, s, step.e);
    } else if (step.LookUp? || step.Enqueue?) && step.r == r {
      MovedReqFits(world, s, step);
    } else if Apply(world, s, step).reqs[r] == s.reqs[r] {
      assert s.reqs[r] in s.reqs;
      ReqFitsGrows(world, s, step, s.reqs[r]);
    }
  }

  lemma {:induction false} TrafficStep(world: World, s: State, step: Step)
    requires Inv(world, s) && Can(world, s, step)
    ensures TrafficInv(world, Apply(world, s, step))
  {
    var s2 := Apply(world, s, step);
    forall m | m in s2.ready ensures HasRow(s2, m.event) && m.retries <= MAX_RETRIES {
      ReadyStep(world, s, step, m);
      StepAdvances(world, s, step);
    }
    forall q | q in s2.reqs ensures ReqFits(s2, q) {
      var r :| 0 <= r < |s2.reqs| && s2.reqs[r] == q;
      ReqStep(world, s, step, r);
    }
    forall slot | slot in s2.slots ensures SlotFits(world, s2, slot) {
      var w :| 0 <= w < |s2.slots| && s2.slots[w] == slot;
      SlotStep(world, s, step, w);
    }
  }

  // ----------------------------------------------------- status and answers --

  lemma {:induction false} StatusStep(world: World, s: State, step: Step, id: string)
    requires Inv(world, s) && Can(world, s, step)
    requires id in Apply(world, s, step).rows
    ensures StatusFits(world, Apply(world, s, step), id)
  {
    RowChange(world, s, step);
    if id in s.rows {
      assert StatusFits(world, s, id);
      if Apply(world, s, step).rows[id].status == s.rows[id].status {
        StatusFitsGrows(world, s, step, id);
      } else if step.MarkQueued? {
        QueuedFits(world, s, step, id);
      } else {
        WorkerWriteFits(world, s, step, id);
      }
    }
  }

  /** mark_queued turns 'received' to 'queued' only while the message it stands
      for is live, or stranded. */
  lemma {:induction false} QueuedFits(world: World, s: State, step: Step, id: string)
    requires Inv(world, s) && Can(world, s, step) && step.MarkQueued?
    requires id in s.rows && id in Apply(world, s, step).rows
    requires Apply(world, s, step).rows[id].status != s.rows[id].status
    ensures StatusFits(world, Apply(world, s, step), id)
  {
    assert ReqFits(s, s.reqs[step.r]) by {
      assert s.reqs[step.r] in s.reqs;
    }
    var e := s.rows[id].payload;
    if Live(s, e) {
      LiveUntilSettled(world, s, step, e);
    }
  }

  lemma {:induction false} WorkerWriteFits(world: World, s: State, step: Step, id: string)
    requires Inv(world, s) && Can(world, s, step) && !step.MarkQueued?
    requires id in s.rows && id in Apply(world, s, step).rows
    requires Apply(world, s, step).rows[id].status != s.rows[id].status
    ensures StatusFits(world, Apply(world, s, step), id)
  {
    hide LedgerInv, AnswerInv, Attempt;
    assert step.MarkDone? || step.DeadLetter?;
    assert SlotFits(world, s, s.slots[step.w]) by {
      assert s.slots[step.w] in s.slots;
    }
  }

  lemma {:induction false} StatusFitsGrows(world: World, s: State, step: Step, id: string)
    requires Inv(world, s) && Can(world, s, step)
    requires id in s.rows && StatusFits(world, s, id)
    requires id in Apply(world, s, step).rows
    requires Apply(world, s, step).rows[id].status == s.rows[id].status
    ensures StatusFits(world, Apply(world, s, step), id)
  {
    var s2 := Apply(world, s, step);
    var e := s.rows[id].payload;
    StepAdvances(world, s, step);
    match s.rows[id].status
    case Queued =>
      if Live(s, e) {
        LiveUntilSettled(world, s, step, e);
      }
    case Processed => CoveredGrows(s.ledger, s2.ledger, e);
    case _ =>
  }

  lemma {:induction false} AnswerStep(world: World, s: State, step: Step, a: Answer)
    requires Inv(world, s) && Can(world, s, step)
    requires a in Apply(world, s, step).answers
    ensures exists id :: AnswerRow(Apply(world, s, step), a, id)
  {
    hide LedgerInv, StatusInv, Attempt;
    var s2 := Apply(world, s, step);
    StepAdvances(world, s, step);
    if a in s.answers {
      var id :| AnswerRow(s, a, id);
      assert AnswerRow(s2, a, id);
    } else if step.LookUp? {
      assert AnswerRow(s2, a, step.id);
    } else {
      assert ReqFits(s, s.reqs[step.r]);
      assert AnswerRow(s2, a, s.reqs[step.r].target.id);
    }
  }

  lemma {:induction false} StepKeepsInv(world: World, s: State, step: Step)
    requires Inv(world, s) && Can(world, s, step)
    ensures Inv(world, Apply(world, s, step))
  {
    var s2 := Apply(world, s, step);
    RowsStep(world, s, step);
    TrafficStep(world, s, step);
    LedgerStep(world, s, step);
    forall id | id in s2.rows ensures StatusFits(world, s2, id) {
      StatusStep(world, s, step, id);
    }
    forall a | a in s2.answers ensures exists id :: AnswerRow(s2, a, id) {
      AnswerStep(world, s, step, a);
    }
  }

  lemma {:induction false} TraceKeepsInv(world: World, states: seq<State>, steps: seq<Step>, n: nat)
    requires Trace(world, states, steps) && n <= |steps| && Inv(world, states[0])
    ensures Inv(world, states[n])
  {
    if n > 0 {
      TraceKeepsInv(world, states, steps, n - 1);
      assert Next(world, states, steps, n - 1);
      StepKeepsInv(world, states[n - 1], steps[n - 1]);
    }
  }

  lemma {:induction false} RunKeepsInv(world: World, s1: State, steps: seq<Step>, s2: State)
    requires Inv(world, s1) && Run(world, s1, steps, s2)
    ensures Inv(world, s2)
  {
    var states :| Along(world, states, steps, s1, s2);
    TraceKeepsInv(world, states, steps, |steps|);
  }

  lemma {:induction false} StartInv(world: World, workers: nat)
    ensures Inv(world, Start(workers))
  {
  }

  lemma {:induction false} ReachableInv(world: World, s: State)
    requires Reachable(world, s)
    ensures Inv(world, s)
  {
    var workers, steps :| Run(world, Start(workers), steps, s);
    StartInv(world, workers);
    RunKeepsInv(world, Start(workers), steps, s);
  }
}
