/** The pipeline's code in its own form: methods over one event log, one ledger
    and one queue, each step of theirs a step of the protocol. So whatever a call
    does, with whatever faults, it stays among the protocol's reachable states. */
module Service {
  import opened Wrappers
  import opened Ledger
  import opened Mapping
  import opened Protocol

  datatype DedupeResult = New | Existing(id: string, status: Status, payload: Event)

  datatype Response = QueuedResponse | DuplicateResponse | ErrorResponse

  // What becomes of send_task and the mark_queued after it: send_task delivers, raises,
  // or delivers and then raises; mark_queued writes, raises, or writes and then raises.
  datatype HandoverFault = Smooth | Refused | DeliveredButRaised | MarkRefused | MarkedButRaised

  datatype Outcome = PostedOutcome | DuplicateOutcome | NoMoneyOutcome | IgnoredOutcome | RaisedOutcome

  predicate RowAccepted(e: Entry) {
    Listed(e.account) && e.amount > 0 && e.currency == CHART_CURRENCY
  }

  /** The commit-time triggers and row checks, as one pass over the entries. */
  method TriggersAccept(entries: seq<Entry>) returns (ok: bool)
    ensures ok <==> Commits(entries)
  {
    var net: map<string, int> := map[];
    ok := |entries| >= 2;
    for i := 0 to |entries|
      invariant forall c :: (if c in net then net[c] else 0) == Net(c, entries[..i])
      invariant ok <==> |entries| >= 2 && forall j :: 0 <= j < i ==> RowAccepted(entries[j])
    {
      var e := entries[i];
      assert entries[..i + 1][..i] == entries[..i];
      ok := ok && RowAccepted(e);
      net := net[e.currency := (if e.currency in net then net[e.currency] else 0) + NetOf(e)];
    }
    assert entries[..|entries|] == entries;
    assert (forall c | c in net :: net[c] == 0) <==> BalancedPerCurrency(entries);
    ok := ok && forall c | c in net :: net[c] == 0;
  }

  /** Faults that end an attempt at the statement they strike. */
  predicate Interrupts(fault: DbFault) {
    fault.Unavailable? || fault.SerializationConflict?
  }

  /** How an attempt ends that some statement of its own, or a fault, brings down. */
  function Ended(fault: DbFault, own: Attempted): Attempted {
    if fault.Unavailable? then Raised else if fault.SerializationConflict? then SerializationFailure else own
  }

  /** Whether the fault strikes at this statement: at any one it likes, and at the
      latest at the one that would end the attempt anyway. */
  method Strikes(fault: DbFault, last: bool) returns (hit: bool)
    ensures hit ==> Interrupts(fault)
    ensures last && Interrupts(fault) ==> hit
  {
    var now: bool := *;
    hit := Interrupts(fault) && (now || last);
  }

  /** The account lookups, one for each name the first time it comes up. */
  method LookUpAccounts(t: Txn, fault: DbFault) returns (error: Option<Attempted>)
    ensures error.None? ==> forall e :: e in t.entries ==> Listed(e.account)
    ensures error.Some? ==> Interrupts(fault) || exists e :: e in t.entries && !Listed(e.account)
    ensures error.Some? ==> error.value == Ended(fault, Raised)
  {
    var accountIds: set<Account> := {};
    for i := 0 to |t.entries|
      invariant forall a :: a in accountIds ==> Listed(a)
      invariant forall j :: 0 <= j < i ==> t.entries[j].account in accountIds
    {
      var e := t.entries[i];
      if e.account in accountIds {
        continue;
      }
      var hit := Strikes(fault, !Listed(e.account));
      if hit || !Listed(e.account) {
        assert e in t.entries;
        return Some(Ended(fault, Raised));
      }
      accountIds := accountIds + {e.account};
    }
    return None;
  }

  /** post_transaction's retry loop, as a function of what each attempt meets. */
  ghost function PostResult(ledger: seq<Txn>, t: Txn, faults: seq<DbFault>, attempt: nat): (seq<Txn>, Attempted)
    requires |faults| == MAX_POST_ATTEMPTS && 1 <= attempt <= MAX_POST_ATTEMPTS
    decreases MAX_POST_ATTEMPTS - attempt
  {
    var (after, outcome) := Attempt(ledger, t, faults[attempt - 1]);
    if outcome.SerializationFailure? && attempt < MAX_POST_ATTEMPTS
    then PostResult(ledger, t, faults, attempt + 1)
    else (after, outcome)
  }

  /** Retrying changes nothing but the odds: the ledger gains the transaction once
      or not at all, 'posted' means it did, and the loop gives up on conflicts only
      when all five attempts met one. */
  lemma {:induction false} PostsOnceOrNot(ledger: seq<Txn>, t: Txn, faults: seq<DbFault>, attempt: nat)
    requires |faults| == MAX_POST_ATTEMPTS && 1 <= attempt <= MAX_POST_ATTEMPTS
    ensures var (after, outcome) := PostResult(ledger, t, faults, attempt);
      && after in {ledger, ledger + [t]}
      && (outcome.Posted? ==> after == ledger + [t] && Conflict(ledger, t).None?)
      && (outcome.Duplicate? || outcome.PkeyViolation? ==> after == ledger && Conflict(ledger, t).Some?)
      && (outcome.SerializationFailure? ==>
            after == ledger && forall i :: attempt - 1 <= i < MAX_POST_ATTEMPTS ==> faults[i].SerializationConflict?)
    decreases MAX_POST_ATTEMPTS - attempt
  {
    if Attempt(ledger, t, faults[attempt - 1]).1.SerializationFailure? && attempt < MAX_POST_ATTEMPTS {
      PostsOnceOrNot(ledger, t, faults, attempt + 1);
    }
  }

  class Stack {
    var rows: Rows
    var ledger: seq<Txn>
    var queue: seq<Msg>
    var pending: Option<Txn>  // what the open database transaction has inserted so far
    ghost var world: World
    ghost var state: State  // where the protocol stands

    /** The tables and the queue are those of a reachable protocol state, and no
        database transaction is open. */
    ghost predicate Valid()
      reads this
    {
      && Reachable(world, state) && pending.None?
      && state.rows == rows && state.ledger == ledger && state.ready == queue
    }

    constructor (workers: nat, ghost world: World)
      ensures Valid() && this.world == world && state == Start(workers)
    {
      rows, ledger, queue, pending := map[], [], [], None;
      this.world := world;
      state := Start(workers);
      new;
      var s := Start(workers);
      assert Along(world, [s], [], s, s);
      assert Run(world, s, [], s);
    }

    ghost method Advance(step: Step)
      requires Reachable(world, state) && Can(world, state, step)
      modifies this`state
      ensures state == Apply(world, old(state), step) && Reachable(world, state)
    {
      ReachableNext(world, state, step);
      state := Apply(world, state, step);
    }

    // ------------------------------------------------------------- ingest --

    /** Another event's row holds the event's type and money object. */
    ghost predicate Twin(rows: Rows, e: Event) {
      exists id :: id in rows && rows[id].payload.etype == e.etype
        && MoneyObjectId(e).Some? && MoneyObjectId(rows[id].payload) == MoneyObjectId(e)
    }

    /** Deduper.check_and_record: one insert that either unique key can refuse,
        and the blocking row when one did. */
    method CheckAndRecord(e: Event) returns (result: DedupeResult)
      requires Valid() && e in world.universe
      modifies this`rows, this`state
      ensures Valid() && state == Apply(world, old(state), Insert(e))
      ensures rows == Recorded(old(rows), e)
      ensures result.New? <==> e.id !in old(rows) && !Twin(old(rows), e)
      ensures rows == if result.New? then old(rows)[e.id := Row(e, Received)] else old(rows)
      ensures result.Existing? ==>
        Blocking(rows, e, result.id) && rows[result.id] == Row(result.payload, result.status)
      ensures result.Existing? && e.id in old(rows) ==> result.id == e.id
      ensures result.Existing? && e.id !in old(rows) ==>
        result.payload.etype == e.etype && MoneyObjectId(e).Some? && MoneyObjectId(result.payload) == MoneyObjectId(e)
    {
      Advance(Insert(e));
      if e.id in rows {
        result := Existing(e.id, rows[e.id].status, rows[e.id].payload);
      } else if HasObject(rows, e) {
        var id :| id in rows && SameObject(rows[id].payload, e);
        result := Existing(id, rows[id].status, rows[id].payload);
      } else {
        rows := rows[e.id := Row(e, Received)];
        result := New;
      }
    }

    /** Deduper.mark_queued: guarded on 'received'. Where it raises after its write, the
        request is not answered. */
    method MarkQueued(ghost r: nat, id: string, ghost answered: bool)
      requires Valid() && AtReq(state, r) && state.reqs[r].Marking? && state.reqs[r].target.id == id
      modifies this`rows, this`state
      ensures Valid() && state == Apply(world, old(state), Step.MarkQueued(r, answered))
      ensures rows == QueuedRows(old(rows), id)
      ensures rows == if id in old(rows) && old(rows)[id].status == Received
        then old(rows)[id := Row(old(rows)[id].payload, Queued)] else old(rows)
    {
      Advance(Step.MarkQueued(r, answered));
      if id in rows && rows[id].status == Received {
        rows := rows[id := rows[id].(status := Queued)];
      }
    }

    /** mark_queued after the enqueue; when it raises, written or not, no 200 follows. */
    method MarkOrRaise(ghost r: nat, target: Event, fault: HandoverFault) returns (response: Response)
      requires Valid() && AtReq(state, r) && state.reqs[r].Marking? && state.reqs[r].target == target
      requires !fault.Refused? && !fault.DeliveredButRaised?
      modifies this`rows, this`state
      ensures Valid() && state.ledger == old(state).ledger && queue == old(queue)
      ensures rows == if fault.MarkRefused? then old(rows) else QueuedRows(old(rows), target.id)
      ensures response == if fault.Smooth? then QueuedResponse else ErrorResponse
      ensures state.answers == old(state).answers +
        if fault.Smooth? then [Answer(old(state).reqs[r].event, false)] else []
    {
      if fault.MarkRefused? {
        Advance(IngestCrash(r));
        return ErrorResponse;
      }
      MarkQueued(r, target.id, fault.Smooth?);
      response := if fault.Smooth? then QueuedResponse else ErrorResponse;
    }

    /** The enqueue, and after a good one the advance to 'queued' and the 200. */
    method EnqueueAndMark(ghost r: nat, target: Event, fault: HandoverFault) returns (response: Response)
      requires Valid() && AtReq(state, r) && state.reqs[r].Enqueueing? && state.reqs[r].target == target
      modifies this`rows, this`queue, this`state
      ensures Valid() && state.ledger == old(state).ledger
      ensures queue == if fault.Refused? then old(queue) else old(queue) + [Msg(target, 0)]
      ensures rows == if fault.Smooth? || fault.MarkedButRaised? then QueuedRows(old(rows), target.id) else old(rows)
      ensures response == if fault.Smooth? then QueuedResponse else ErrorResponse
      ensures state.answers == old(state).answers +
        if fault.Smooth? then [Answer(old(state).reqs[r].event, false)] else []
    {
      match fault {
        case Refused =>
          Advance(EnqueueRaises(r, false));
          response := ErrorResponse;
        case DeliveredButRaised =>
          Advance(EnqueueRaises(r, true));
          queue := queue + [Msg(target, 0)];
          response := ErrorResponse;
        case _ =>
          Advance(Enqueue(r));
          queue := queue + [Msg(target, 0)];
          response := MarkOrRaise(r, target, fault);
      }
    }

    /** What a request enqueues: its own event, or the stored payload of the row
        that blocked it. */
    predicate Enqueues(before: Rows, e: Event, target: Event) {
      if Collides(before, e)
      then exists id | id in before ::
        Blocking(before, e, id) && before[id].payload == target && before[id].status in {Received, Queued}
      else target == e
    }

    /** The webhook, from the dedupe on: a new event, or one whose row is not done,
        is enqueued and answered 'queued'; a row with a worker's verdict makes it a
        duplicate; and no 200 follows an enqueue or a mark that raised, although the
        message may be on the queue and the row marked. */
    method Webhook(e: Event, fault: HandoverFault) returns (response: Response, ghost target: Event)
      requires Valid() && e in world.universe
      modifies this`rows, this`queue, this`state
      ensures Valid() && ledger == old(ledger)
      ensures response.DuplicateResponse? ==>
        && rows == old(rows) && queue == old(queue)
        && exists id :: Blocking(old(rows), e, id) && old(rows)[id].status in {Processed, NoMoneyMoved, Failed}
      ensures !response.DuplicateResponse? ==>
        && Enqueues(old(rows), e, target)
        && (response.QueuedResponse? <==> fault.Smooth?)
        && queue == (if fault.Refused? then old(queue) else old(queue) + [Msg(target, 0)])
        && rows == (if fault.Smooth? || fault.MarkedButRaised? then QueuedRows(Recorded(old(rows), e), target.id)
                    else Recorded(old(rows), e))
      ensures e.id in old(rows) ==>
        && (response.DuplicateResponse? <==> old(rows)[e.id].status in {Processed, NoMoneyMoved, Failed})
        && (!response.DuplicateResponse? ==> target == old(rows)[e.id].payload)
      ensures e.id !in old(rows) && !Twin(old(rows), e) ==> !response.DuplicateResponse? && target == e
      ensures state.answers == old(state).answers +
        if response.ErrorResponse? then [] else [Answer(e, response.DuplicateResponse?)]
    {
      ghost var r := |state.reqs|;
      target := e;
      var result := CheckAndRecord(e);
      match result {
        case New =>
          response := EnqueueAndMark(r, e, fault);
        case Existing(id, status, payload) =>
          Advance(LookUp(r, id));
          if Terminal(status) {
            assert Blocking(old(rows), e, id) && old(rows)[id].status == status;
            TerminalIsWorkers(status);
            response := DuplicateResponse;
          } else {
            target := payload;
            response := EnqueueAndMark(r, payload, fault);
          }
      }
    }

    // ------------------------------------------------------------- worker --

    /** _mark_status: the unguarded update, or the insert where ingest left no row. */
    method MarkStatus(e: Event, status: Status)
      modifies this`rows
      ensures rows == Marked(old(rows), e, status)
      ensures e.id in old(rows) ==> rows == old(rows)[e.id := Row(old(rows)[e.id].payload, status)]
      ensures e.id !in old(rows) && Twin(old(rows), e) ==> rows == old(rows)
      ensures e.id !in old(rows) && !Twin(old(rows), e) ==> rows == old(rows)[e.id := Row(e, status)]
    {
      if e.id in rows {
        rows := rows[e.id := rows[e.id].(status := status)];
      } else if !HasObject(rows, e) {
        rows := rows[e.id := Row(e, status)];
      }
    }

    ghost predicate At(w: nat, e: Event, pc: Pc)
      reads this
    {
      AtSlot(state, w) && state.slots[w].msg.event == e && state.slots[w].pc == pc
    }

    // -------------------------------------------- one database transaction --

    /** The insert into transactions, where the unique keys speak. */
    method InsertTransaction(t: Txn, fault: DbFault) returns (error: Option<Attempted>)
      requires pending.None?
      modifies this`pending
      ensures error.None? ==> pending == Some(t.(entries := [])) && Conflict(ledger, t).None?
      ensures error.Some? ==> pending.None? && (Interrupts(fault) || Conflict(ledger, t).Some?)
      ensures error.Some? ==> error.value == Ended(fault, if Conflict(ledger, t) == Some(Pkey) then PkeyViolation else Duplicate)
    {
      var violation := Conflict(ledger, t);
      var hit := Strikes(fault, violation.Some?);
      if hit || violation.Some? {
        return Some(Ended(fault, if violation == Some(Pkey) then PkeyViolation else Duplicate));
      }
      pending := Some(t.(entries := []));
      return None;
    }

    /** The inserts into entries, one at a time, where the row checks speak. */
    method InsertEntries(t: Txn, fault: DbFault) returns (error: Option<Attempted>)
      requires pending == Some(t.(entries := []))
      modifies this`pending
      ensures error.None? ==> pending == Some(t) && forall e :: e in t.entries ==> RowAccepted(e)
      ensures error.Some? ==> Interrupts(fault) || exists e :: e in t.entries && !RowAccepted(e)
      ensures error.Some? ==> error.value == Ended(fault, Raised)
    {
      for i := 0 to |t.entries|
        invariant pending == Some(t.(entries := t.entries[..i]))
        invariant forall j :: 0 <= j < i ==> RowAccepted(t.entries[j])
      {
        var e := t.entries[i];
        var hit := Strikes(fault, !RowAccepted(e));
        if hit || !RowAccepted(e) {
          assert e in t.entries;
          return Some(Ended(fault, Raised));
        }
        assert t.entries[..i] + [e] == t.entries[..i + 1];
        pending := Some(t.(entries := pending.value.entries + [e]));
      }
      assert t.entries[..|t.entries|] == t.entries;
      return None;
    }

    /** COMMIT, where the deferred triggers speak. */
    method Commit(fault: DbFault) returns (error: Option<Attempted>)
      requires pending.Some?
      modifies this`ledger, this`pending
      ensures error.Some? ==>
        ledger == old(ledger) && (Interrupts(fault) || !Commits(old(pending).value.entries))
        && error.value == Ended(fault, Raised)
      ensures error.None? ==>
        !Interrupts(fault) && Commits(old(pending).value.entries)
        && ledger == old(ledger) + [old(pending).value] && pending.None?
    {
      var ok := TriggersAccept(pending.value.entries);
      var hit := Strikes(fault, true);
      if hit || !ok {
        return Some(Ended(fault, Raised));
      }
      ledger, pending := ledger + [pending.value], None;
      return None;
    }

    /** _attempt: look the accounts up, insert the transaction and its entries, commit;
        whatever fails, or wherever a fault strikes, what was inserted is rolled back.
        So an attempt is atomic, as the protocol takes it to be. */
    method AttemptCommit(t: Txn, fault: DbFault) returns (outcome: Attempted)
      requires pending.None?
      modifies this`ledger, this`pending
      ensures pending.None? && (ledger, outcome) == Attempt(old(ledger), t, fault)
      ensures outcome != Posted && !fault.LostAfterCommit? ==> ledger == old(ledger)
    {
      var error := LookUpAccounts(t, fault);
      if error.None? {
        error := InsertTransaction(t, fault);
      }
      if error.None? {
        error := InsertEntries(t, fault);
      }
      if error.None? {
        error := Commit(fault);
      }
      if error.Some? {
        pending := None;
        return error.value;
      }
      outcome := if fault.LostAfterCommit? then Raised else Posted;
    }

    /** One attempt against the ledger. */
    method TryPost(ghost w: nat, ghost e: Event, ghost attempt: nat, t: Txn, fault: DbFault) returns (outcome: Attempted)
      requires Valid() && At(w, e, Posting(attempt)) && Moves(world.fees, e) && t == MoveOf(world.fees, e)
      modifies this`ledger, this`pending, this`state
      ensures Valid() && state == Apply(world, old(state), Post(w, fault))
      ensures (ledger, outcome) == Attempt(old(ledger), t, fault)
    {
      outcome := AttemptCommit(t, fault);
      Advance(Post(w, fault));
    }

    /** post_transaction: up to five attempts, more only after a conflict. */
    method PostTransaction(ghost w: nat, ghost e: Event, t: Txn, faults: seq<DbFault>) returns (outcome: Attempted)
      requires Valid() && At(w, e, Posting(1)) && Moves(world.fees, e) && t == MoveOf(world.fees, e)
      requires |faults| == MAX_POST_ATTEMPTS
      modifies this`ledger, this`pending, this`state
      ensures Valid() && (ledger, outcome) == PostResult(old(ledger), t, faults, 1)
      ensures state == WithPc(old(state), w, PcAfter(outcome, MAX_POST_ATTEMPTS)).(ledger := ledger)
    {
      hide Resolved;
      var attempt := 1;
      while true
        invariant 1 <= attempt <= MAX_POST_ATTEMPTS && Valid() && ledger == old(ledger)
        invariant state == WithPc(old(state), w, Posting(attempt))
        invariant PostResult(ledger, t, faults, attempt) == PostResult(old(ledger), t, faults, 1)
        decreases MAX_POST_ATTEMPTS - attempt
      {
        outcome := TryPost(w, e, attempt, t, faults[attempt - 1]);
        if !outcome.SerializationFailure? || attempt == MAX_POST_ATTEMPTS {
          return;
        }
        attempt := attempt + 1;
      }
    }

    /** Nothing but slot w's program counter, the ledger and the rows differ. */
    twostate predicate OnlyWork(w: nat, pc: Pc)
      requires old(AtSlot(state, w))
      reads this
    {
      && world == old(world) && queue == old(queue)
      && state == old(state).(
           rows := rows, ledger := ledger, slots := old(state).slots[w := old(state).slots[w].(pc := pc)])
    }

    /** The worker's last write of a run that got this far. */
    method Finish(ghost w: nat, e: Event, status: Status, write: WriteFault) returns (ok: bool)
      requires Valid() && AtSlot(state, w) && state.slots[w].msg.event == e
      requires state.slots[w].pc == if status == Processed then MarkingProcessed else MarkingNoMoney
      requires status in {Processed, NoMoneyMoved}
      modifies this`rows, this`state
      ensures Valid() && ok == write.Wrote? && ledger == old(ledger)
      ensures rows == if write.NotWritten? then old(rows) else Marked(old(rows), e, status)
      ensures OnlyWork(w, if ok then Acking else Failing)
    {
      Advance(MarkDone(w, write));
      if !write.NotWritten? {
        MarkStatus(e, status);
      }
      ok := write.Wrote?;
    }

    /** What posting and marking come to. */
    twostate predicate PostedAndMarked(e: Event, t: Txn, faults: seq<DbFault>, write: WriteFault, outcome: Outcome)
      requires |faults| == MAX_POST_ATTEMPTS
      reads this
    {
      var (after, posted) := PostResult(old(ledger), t, faults, 1);
      && ledger == after
      && if posted.Raised? || posted.SerializationFailure? then rows == old(rows) && outcome.RaisedOutcome?
         else
           && rows == (if write.NotWritten? then old(rows) else Marked(old(rows), e, Processed))
           && outcome == if !write.Wrote? then RaisedOutcome
                         else if posted.Posted? then PostedOutcome else DuplicateOutcome
    }

    method PostAndMark(ghost w: nat, e: Event, t: Txn, faults: seq<DbFault>, write: WriteFault) returns (outcome: Outcome)
      requires Valid() && At(w, e, Posting(1)) && Moves(world.fees, e) && t == MoveOf(world.fees, e)
      requires |faults| == MAX_POST_ATTEMPTS
      modifies this`rows, this`ledger, this`pending, this`state
      ensures Valid() && OnlyWork(w, if outcome.RaisedOutcome? then Failing else Acking)
      ensures PostedAndMarked(e, t, faults, write, outcome)
    {
      var posted := PostTransaction(w, e, t, faults);
      if posted.Raised? || posted.SerializationFailure? {
        return RaisedOutcome;
      }
      var ok := Finish(w, e, Processed, write);
      outcome := if !ok then RaisedOutcome else if posted.Posted? then PostedOutcome else DuplicateOutcome;
    }

    twostate predicate MarkedNoMoney(e: Event, write: WriteFault, outcome: Outcome)
      reads this
    {
      && ledger == old(ledger)
      && rows == (if write.NotWritten? then old(rows) else Marked(old(rows), e, NoMoneyMoved))
      && outcome == if !write.Wrote? then RaisedOutcome else if Handled(e.etype) then NoMoneyOutcome else IgnoredOutcome
    }

    method RecordNoMoney(ghost w: nat, e: Event, write: WriteFault) returns (outcome: Outcome)
      requires Valid() && At(w, e, MarkingNoMoney)
      modifies this`rows, this`state
      ensures Valid() && OnlyWork(w, if outcome.RaisedOutcome? then Failing else Acking)
      ensures MarkedNoMoney(e, write, outcome)
    {
      var ok := Finish(w, e, NoMoneyMoved, write);
      outcome := if !ok then RaisedOutcome else if Handled(e.etype) then NoMoneyOutcome else IgnoredOutcome;
    }

    ghost method StartOn(w: nat, e: Event, ok: bool)
      requires Valid() && At(w, e, Starting)
      modifies this`state
      ensures Valid() && state == WithPc(old(state), w, FirstPc(world.fees, e, ok))
    {
      Advance(Begin(w, ok));
    }

    /** handle_event: map, fetching a missing fee; post; write the status. Its
        effect on rows and ledger, and when it raises, stated outright. */
    method HandleEvent(ghost w: nat, e: Event, fetched: Option<int>, faults: seq<DbFault>, write: WriteFault)
      returns (outcome: Outcome)
      requires Valid() && At(w, e, Starting) && |faults| == MAX_POST_ATTEMPTS
      requires fetched.Some? ==> fetched.value == world.fees(e)
      modifies this`rows, this`ledger, this`pending, this`state
      ensures Valid() && OnlyWork(w, if outcome.RaisedOutcome? then Failing else Acking)
      ensures NoMoney(world.fees, e) ==> MarkedNoMoney(e, write, outcome)
      ensures !NoMoney(world.fees, e) && (!Moves(world.fees, e) || (FeeMissing(e) && fetched.None?)) ==>
        rows == old(rows) && ledger == old(ledger) && outcome.RaisedOutcome?
      ensures Moves(world.fees, e) && !(FeeMissing(e) && fetched.None?) ==>
        PostedAndMarked(e, MoveOf(world.fees, e), faults, write, outcome)
      ensures e.etype !in {ChargeSucceeded, ChargeRefunded, DisputeCreated, PayoutPaid} ==>
        ledger == old(ledger) && outcome in {IgnoredOutcome, NoMoneyOutcome, RaisedOutcome}
      ensures e.etype !in {ChargeSucceeded, ChargeRefunded, DisputeCreated, PayoutPaid, InvoicePaymentFailed} ==>
        && outcome == (if write.Wrote? then IgnoredOutcome else RaisedOutcome)
        && rows == if write.NotWritten? then old(rows) else Marked(old(rows), e, NoMoneyMoved)
    {
      hide Apply, Can, Build, Resolved, PostResult, Marked;
      OnlyFourTypesMove(world.fees, e);
      if !Handled(e.etype) {
        StartOn(w, e, true);
        outcome := RecordNoMoney(w, e, write);
        return;
      }
      if FeeMissing(e) && fetched.None? {
        MissingFeeIsMoney(world.fees, e);
        StartOn(w, e, false);
        return RaisedOutcome;
      }
      StartOn(w, e, true);
      var mapped := if FeeMissing(e) then Build(e, fetched) else Build(e, None);
      FetchedIsResolved(world.fees, e, fetched);
      match mapped {
        case Err(_) => outcome := RaisedOutcome;
        case Ok(None) => outcome := RecordNoMoney(w, e, write);
        case Ok(Some(t)) => outcome := PostAndMark(w, e, t, faults, write);
      }
    }

    /** Retries left: publish the message with one more, then acknowledge this one. */
    method Retry(ghost w: nat, m: Msg)
      requires Valid() && AtSlot(state, w) && state.slots[w] == Busy(m, Failing) && m.retries < MAX_RETRIES
      modifies this`queue, this`state
      ensures Valid() && queue == old(queue) + [Msg(m.event, m.retries + 1)]
      ensures state == old(state).(slots := old(state).slots[w := Idle], ready := queue)
    {
      Advance(Fail(w));
      queue := queue + [Msg(m.event, m.retries + 1)];
      Advance(Ack(w));
    }

    method WriteDeadLetter(ghost w: nat, m: Msg, write: WriteFault)
      requires Valid() && AtSlot(state, w) && state.slots[w] == Busy(m, DeadLettering)
      modifies this`rows, this`state
      ensures Valid() && rows == if write.NotWritten? then old(rows) else Marked(old(rows), m.event, Failed)
      ensures state == WithPc(old(state), w, Acking).(
        rows := rows, stranded := old(state).stranded + if write.NotWritten? then {m.event.id} else {})
    {
      hide Marked;
      Advance(DeadLetter(w, write));
      if !write.NotWritten? {
        MarkStatus(m.event, Failed);
      }
    }

    /** None left: write 'failed', if the write can be made, then acknowledge. */
    method GiveUp(ghost w: nat, m: Msg, write: WriteFault)
      requires Valid() && AtSlot(state, w) && state.slots[w] == Busy(m, Failing) && m.retries >= MAX_RETRIES
      modifies this`rows, this`state
      ensures Valid() && rows == if write.NotWritten? then old(rows) else Marked(old(rows), m.event, Failed)
      ensures state == old(state).(
        slots := old(state).slots[w := Idle], rows := rows,
        stranded := old(state).stranded + if write.NotWritten? then {m.event.id} else {})
    {
      hide Marked;
      Advance(Fail(w));
      WriteDeadLetter(w, m, write);
      Advance(Ack(w));
    }

    /** The except branch of process_event: retry while any are left, or write the
        dead letter; then the broker takes the acknowledgement either way. */
    method GiveUpOrRetry(ghost w: nat, m: Msg, write: WriteFault)
      requires Valid() && AtSlot(state, w) && state.slots[w] == Busy(m, Failing)
      modifies this`rows, this`queue, this`state
      ensures Valid() && ledger == old(ledger) && world == old(world)
      ensures state.slots == old(state).slots[w := Idle]
      ensures if m.retries < MAX_RETRIES
        then queue == old(queue) + [Msg(m.event, m.retries + 1)] && rows == old(rows)
        else queue == old(queue) && rows == if write.NotWritten? then old(rows) else Marked(old(rows), m.event, Failed)
      ensures state.stranded == old(state).stranded +
        if m.retries >= MAX_RETRIES && write.NotWritten? then {m.event.id} else {}
    {
      hide Marked;
      if m.retries < MAX_RETRIES {
        Retry(w, m);
      } else {
        GiveUp(w, m, write);
      }
    }

    /** What handling an event that did not raise leaves in its row. */
    method HandleToStatus(ghost w: nat, e: Event, fetched: Option<int>, faults: seq<DbFault>, write: WriteFault)
      returns (outcome: Outcome)
      requires Valid() && At(w, e, Starting) && |faults| == MAX_POST_ATTEMPTS
      requires fetched.Some? ==> fetched.value == world.fees(e)
      modifies this`rows, this`ledger, this`pending, this`state
      ensures Valid() && OnlyWork(w, if outcome.RaisedOutcome? then Failing else Acking)
      ensures !outcome.RaisedOutcome? && e.id in rows ==>
        rows[e.id].status == if outcome in {PostedOutcome, DuplicateOutcome} then Processed else NoMoneyMoved
    {
      hide Apply, Can, Build, Resolved, PostResult;
      outcome := HandleEvent(w, e, fetched, faults, write);
    }

    /** A worker takes message i off the queue. */
    method TakeUp(i: nat, ghost w: nat) returns (m: Msg)
      requires Valid() && i < |queue| && w < |state.slots| && state.slots[w].Idle?
      modifies this`queue, this`state
      ensures Valid() && m == old(queue)[i] && queue == old(queue)[..i] + old(queue)[i + 1..]
      ensures state == old(state).(ready := queue, slots := old(state).slots[w := Busy(m, Starting)])
    {
      m := queue[i];
      Advance(Take(i, w));
      queue := queue[..i] + queue[i + 1..];
    }

    ghost method Acknowledge(w: nat)
      requires Valid() && AtSlot(state, w) && state.slots[w].pc.Acking?
      modifies this`state
      ensures Valid() && state == old(state).(slots := old(state).slots[w := Idle])
    {
      Advance(Ack(w));
    }

    /** process_event on the queued message i: acknowledged only after its handler
        is done or its retry is published, so the worker ends idle and the message
        is gone, or back with one retry more, or dead-lettered. */
    method ProcessEvent(i: nat, ghost w: nat, fetched: Option<int>, faults: seq<DbFault>, write: WriteFault, deadWrite: WriteFault)
      returns (outcome: Outcome)
      requires Valid() && i < |queue| && w < |state.slots| && state.slots[w].Idle? && |faults| == MAX_POST_ATTEMPTS
      requires fetched.Some? ==> fetched.value == world.fees(queue[i].event)
      modifies this`rows, this`ledger, this`pending, this`queue, this`state
      ensures Valid() && state.slots == old(state).slots
      ensures var m, rest := old(queue)[i], old(queue)[..i] + old(queue)[i + 1..];
        queue == rest + if outcome.RaisedOutcome? && m.retries < MAX_RETRIES then [Msg(m.event, m.retries + 1)] else []
      ensures outcome.RaisedOutcome? && old(queue)[i].retries >= MAX_RETRIES ==>
        if deadWrite.NotWritten? then old(queue)[i].event.id in state.stranded
        else old(queue)[i].event.id in rows ==> rows[old(queue)[i].event.id].status == Failed
      ensures !outcome.RaisedOutcome? && old(queue)[i].event.id in rows ==>
        rows[old(queue)[i].event.id].status == if outcome in {PostedOutcome, DuplicateOutcome} then Processed else NoMoneyMoved
    {
      hide Apply, Can, Moves, HasObject;
      var m := TakeUp(i, w);
      outcome := HandleToStatus(w, m.event, fetched, faults, write);
      if outcome.RaisedOutcome? {
        GiveUpOrRetry(w, m, deadWrite);
      } else {
        Acknowledge(w);
      }
    }
  }

  lemma {:induction false} TerminalIsWorkers(status: Status)
    ensures Terminal(status) <==> status in {Processed, NoMoneyMoved, Failed}
  {
    match status
    case _ =>
  }

  /** Fetching the fee only when the payload lacks it is what the protocol resolves. */
  lemma {:induction false} FetchedIsResolved(fees: Event -> int, e: Event, fetched: Option<int>)
    requires FeeMissing(e) ==> fetched == Some(fees(e))
    ensures (if FeeMissing(e) then Build(e, fetched) else Build(e, None)) == Resolved(fees, e)
  {
    hide Build;
  }

  lemma {:induction false} MissingFeeIsMoney(fees: Event -> int, e: Event)
    requires Handled(e.etype) && FeeMissing(e)
    ensures !NoMoney(fees, e)
  {
  }

  /** The payload alone does not give the fee. */
  predicate FeeMissing(e: Event) {
    Build(e, None).Err? && Build(e, None).error.MissingFee?
  }

  /** A posting is tried five times and no more: it gives up on conflicts exactly when
      the database reports one each time. */
  lemma {:induction false} FiveConflicts(ledger: seq<Txn>, t: Txn, faults: seq<DbFault>)
    requires |faults| == 5
    ensures PostResult(ledger, t, faults, 1).1 == SerializationFailure <==>
      forall i :: 0 <= i < 5 ==> faults[i] == SerializationConflict
  {
    ConflictsFrom(ledger, t, faults, 1);
  }

  lemma {:induction false} ConflictsFrom(ledger: seq<Txn>, t: Txn, faults: seq<DbFault>, attempt: nat)
    requires |faults| == 5 && 1 <= attempt <= 5
    ensures PostResult(ledger, t, faults, attempt).1 == SerializationFailure <==>
      forall i :: attempt - 1 <= i < 5 ==> faults[i] == SerializationConflict
    decreases 5 - attempt
  {
    hide Conflict;
    if attempt < 5 {
      ConflictsFrom(ledger, t, faults, attempt + 1);
    }
  }
}
