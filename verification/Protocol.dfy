/** The money pipeline as a step protocol: ingest handlers, the broker and the
    workers, each advancing by one database or queue operation at a time, with
    crashes and redeliveries between any two of them.

    An ingest handler is ingest/app.py's webhook over ingest/dedupe.py; a worker
    is worker/tasks.py's process_event over worker/handlers.py and
    ledger/post.py. A payload is the event itself, so the columns event_type and
    object_id of stripe_events are read off it. */
module Protocol {
  import opened Wrappers
  import opened Ledger
  import opened Mapping

  const MAX_RETRIES := 5        // process_event's max_retries
  const MAX_POST_ATTEMPTS := 5  // post_transaction's max_attempts

  /** What is fixed outside the system: the fee Stripe's API reports for an
      event whose payload lacks it, and the verified events there are. */
  datatype World = World(fees: Event -> int, universe: iset<Event>)

  // ------------------------------------------------- what an event means --

  predicate Handled(etype: EventType) {
    etype in {ChargeSucceeded, ChargeRefunded, DisputeCreated, PayoutPaid, InvoicePaymentFailed}
  }

  /** The mapping, with the missing fee fetched. */
  function Resolved(fees: Event -> int, e: Event): Result<Option<Txn>, MapError> {
    match Build(e, None)
    case Err(MissingFee(_)) => Build(e, Some(fees(e)))
    case result => result
  }

  predicate NoMoney(fees: Event -> int, e: Event) {
    !Handled(e.etype) || Resolved(fees, e) == Ok(None)
  }

  predicate Moves(fees: Event -> int, e: Event) {
    Handled(e.etype) && Resolved(fees, e).Ok? && Resolved(fees, e).value.Some?
  }

  /** The four event types the worker posts. payment_intent.succeeded is not one of
      them: the charge of the same payment already carries the money. */
  lemma {:induction false} OnlyFourTypesMove(fees: Event -> int, e: Event)
    ensures Moves(fees, e) ==> e.etype in {ChargeSucceeded, ChargeRefunded, DisputeCreated, PayoutPaid}
    ensures NoMoney(fees, e) <==>
      && e.etype !in {ChargeSucceeded, ChargeRefunded, DisputeCreated, PayoutPaid}
      && (e.etype.InvoicePaymentFailed? ==> e.data.Some?)
    ensures e.etype.PaymentIntentSucceeded? ==> NoMoney(fees, e)
  {
    hide Amounts, Entries, Upper, MoneyObjectId;
  }

  function MoveOf(fees: Event -> int, e: Event): Txn
    requires Moves(fees, e)
  {
    Resolved(fees, e).value.value
  }

  /** The second dedupe key: event type and the object that moved money. */
  predicate SameObject(a: Event, b: Event) {
    a.etype == b.etype && MoneyObjectId(a).Some? && MoneyObjectId(a) == MoneyObjectId(b)
  }

  predicate Blocks(a: Event, b: Event) {
    a.id == b.id || SameObject(a, b)
  }

  // -------------------------------------------------- the event-log table --

  datatype Status = Received | Queued | Processed | NoMoneyMoved | Failed

  predicate Terminal(status: Status) {
    status !in {Received, Queued}
  }

  datatype Row = Row(payload: Event, status: Status)

  type Rows = map<string, Row>

  predicate HasObject(rows: Rows, e: Event) {
    exists id | id in rows :: SameObject(rows[id].payload, e)
  }

  /** Either unique key of stripe_events is taken. */
  predicate Collides(rows: Rows, e: Event) {
    e.id in rows || HasObject(rows, e)
  }

  /** The row the duplicate lookup may return: the id match first. */
  predicate Blocking(rows: Rows, e: Event, id: string) {
    id in rows && if e.id in rows then id == e.id else SameObject(rows[id].payload, e)
  }

  function Recorded(rows: Rows, e: Event): Rows {
    if Collides(rows, e) then rows else rows[e.id := Row(e, Received)]
  }

  function QueuedRows(rows: Rows, id: string): Rows {
    if id in rows && rows[id].status == Received then rows[id := rows[id].(status := Queued)] else rows
  }

  /** The worker's unguarded UPDATE, or its INSERT where no row has the id. */
  function Marked(rows: Rows, e: Event, status: Status): Rows {
    if e.id in rows then rows[e.id := rows[e.id].(status := status)]
    else if HasObject(rows, e) then rows
    else rows[e.id := Row(e, status)]
  }

  // ------------------------------------------------------- ledger commits --

  datatype Violation = Pkey | DedupeEvent | DedupeObject

  predicate SameEventId(t: Txn, u: Txn) {
    t.eventId.Some? && t.eventId == u.eventId
  }

  predicate SameObjectKey(t: Txn, u: Txn) {
    t.etype.Some? && t.etype == u.etype && t.objectId.Some? && t.objectId == u.objectId
  }

  /** The unique constraint an INSERT reports, the primary key first. */
  function Conflict(ledger: seq<Txn>, t: Txn): Option<Violation> {
    if exists u | u in ledger :: u.id == t.id then Some(Pkey)
    else if exists u | u in ledger :: SameEventId(t, u) then Some(DedupeEvent)
    else if exists u | u in ledger :: SameObjectKey(t, u) then Some(DedupeObject)
    else None
  }

  // What the database connection does during one attempt.
  datatype DbFault = Fine | SerializationConflict | Unavailable | LostAfterCommit

  datatype Attempted = Posted | Duplicate | PkeyViolation | SerializationFailure | Raised

  /** One attempt of post_transaction: the ledger after it, and what it reports. A
      fault that strikes ends the attempt, at whichever statement it does. */
  ghost function Attempt(ledger: seq<Txn>, t: Txn, fault: DbFault): (seq<Txn>, Attempted) {
    if fault.Unavailable? then (ledger, Raised)
    else if fault.SerializationConflict? then (ledger, SerializationFailure)
    else if exists e :: e in t.entries && !Listed(e.account) then (ledger, Raised)
    else
      match Conflict(ledger, t)
      case Some(Pkey) => (ledger, PkeyViolation)
      case Some(_) => (ledger, Duplicate)
      case None =>
        if !Commits(t.entries) then (ledger, Raised)
        else (ledger + [t], if fault.LostAfterCommit? then Raised else Posted)
  }

  // --------------------------------------------------------------- states --

  datatype Msg = Msg(event: Event, retries: nat)

  datatype Pc =
    | Starting
    | Posting(attempt: nat)
    | MarkingProcessed
    | MarkingNoMoney
    | Failing
    | DeadLettering
    | Acking

  datatype Slot = Idle | Busy(msg: Msg, pc: Pc)

  // target is the payload being enqueued: the event, or the stored payload of
  // the row that blocked it.
  datatype Req =
    | Looking(event: Event)
    | Enqueueing(event: Event, target: Event)
    | Marking(event: Event, target: Event)
    | Closed

  // A 200: either {"status": "queued"} or {"status": "duplicate"}.
  datatype Answer = Answer(event: Event, duplicate: bool)

  /** received, answers and stranded are history: the events whose insert ran,
      the 200s given, and the rows whose dead-letter write itself failed. */
  datatype State = State(
    rows: Rows, ledger: seq<Txn>, ready: seq<Msg>, slots: seq<Slot>, reqs: seq<Req>,
    received: seq<Event>, answers: seq<Answer>, stranded: set<string>)

  function Start(workers: nat): State {
    State(map[], [], [], seq(workers, _ => Idle), [], [], [], {})
  }

  // What becomes of a status write: done, refused, or done but reported as an error.
  datatype WriteFault = Wrote | NotWritten | WroteButRaised

  datatype Step =
    // ingest
    | Insert(e: Event)
    | LookUp(r: nat, id: string)
    | Enqueue(r: nat)
    | EnqueueRaises(r: nat, published: bool)
    | MarkQueued(r: nat, answered: bool)
    | IngestCrash(r: nat)
    // worker
    | Take(i: nat, w: nat)
    | Begin(w: nat, ok: bool)
    | Post(w: nat, fault: DbFault)
    | MarkDone(w: nat, write: WriteFault)
    | Fail(w: nat)
    | DeadLetter(w: nat, write: WriteFault)
    | Ack(w: nat)
    | WorkerCrash(w: nat)
    | Redeliver(w: nat)
    // operators
    | Redrive(id: string)
    | Approve(t: Txn)

  predicate AtReq(s: State, r: nat) {
    r < |s.reqs|
  }

  predicate AtSlot(s: State, w: nat) {
    w < |s.slots| && s.slots[w].Busy?
  }

  /** A compensating transaction: no Stripe identity, and the database takes it. */
  ghost predicate Compensating(ledger: seq<Txn>, t: Txn) {
    t.eventId.None? && t.objectId.None? && t.id.Minted? && Conflict(ledger, t).None? && Commits(t.entries)
  }

  ghost predicate Can(world: World, s: State, step: Step) {
    match step
    case Insert(e) => e in world.universe
    case LookUp(r, id) => AtReq(s, r) && s.reqs[r].Looking? && Blocking(s.rows, s.reqs[r].event, id)
    case Enqueue(r) => AtReq(s, r) && s.reqs[r].Enqueueing?
    case EnqueueRaises(r, _) => AtReq(s, r) && s.reqs[r].Enqueueing?
    case MarkQueued(r, _) => AtReq(s, r) && s.reqs[r].Marking?
    case IngestCrash(r) => AtReq(s, r)
    case Take(i, w) => i < |s.ready| && w < |s.slots| && s.slots[w].Idle?
    case Begin(w, _) => AtSlot(s, w) && s.slots[w].pc.Starting?
    case Post(w, _) => AtSlot(s, w) && s.slots[w].pc.Posting? && Moves(world.fees, s.slots[w].msg.event)
    case MarkDone(w, _) => AtSlot(s, w) && (s.slots[w].pc.MarkingProcessed? || s.slots[w].pc.MarkingNoMoney?)
    case Fail(w) => AtSlot(s, w) && s.slots[w].pc.Failing?
    case DeadLetter(w, _) => AtSlot(s, w) && s.slots[w].pc.DeadLettering?
    case Ack(w) => AtSlot(s, w) && s.slots[w].pc.Acking?
    case WorkerCrash(w) => AtSlot(s, w)
    case Redeliver(w) => AtSlot(s, w)
    case Redrive(id) => id in s.rows
    case Approve(t) => Compensating(s.ledger, t)
  }

  function WithReq(s: State, r: nat, req: Req): State
    requires AtReq(s, r)
  {
    s.(reqs := s.reqs[r := req])
  }

  function WithPc(s: State, w: nat, pc: Pc): State
    requires AtSlot(s, w)
  {
    s.(slots := s.slots[w := s.slots[w].(pc := pc)])
  }

  function Published(s: State, m: Msg): State {
    s.(ready := s.ready + [m])
  }

  /** handle_event up to its first effect. */
  function FirstPc(fees: Event -> int, e: Event, ok: bool): Pc {
    if !Handled(e.etype) then MarkingNoMoney
    else if !ok then Failing
    else
      match Resolved(fees, e)
      case Ok(Some(_)) => Posting(1)
      case Ok(None) => MarkingNoMoney
      case Err(_) => Failing
  }

  function PcAfter(outcome: Attempted, attempt: nat): Pc {
    match outcome
    case Posted | Duplicate | PkeyViolation => MarkingProcessed
    case SerializationFailure => if attempt < MAX_POST_ATTEMPTS then Posting(attempt + 1) else Failing
    case Raised => Failing
  }

  ghost function Apply(world: World, s: State, step: Step): State
    requires Can(world, s, step)
  {
    match step
    case Insert(e) =>
      s.(rows := Recorded(s.rows, e),
         received := s.received + [e],
         reqs := s.reqs + [if Collides(s.rows, e) then Looking(e) else Enqueueing(e, e)])
    case LookUp(r, id) =>
      var e, row := s.reqs[r].event, s.rows[id];
      if Terminal(row.status) then WithReq(s, r, Closed).(answers := s.answers + [Answer(e, true)])
      else WithReq(s, r, Enqueueing(e, row.payload))
    case Enqueue(r) =>
      var q := s.reqs[r];
      Published(WithReq(s, r, Marking(q.event, q.target)), Msg(q.target, 0))
    case EnqueueRaises(r, published) =>
      var q := s.reqs[r];
      if published then Published(WithReq(s, r, Closed), Msg(q.target, 0)) else WithReq(s, r, Closed)
    case MarkQueued(r, answered) =>
      var q := s.reqs[r];
      WithReq(s, r, Closed).(
        rows := QueuedRows(s.rows, q.target.id),
        answers := if answered then s.answers + [Answer(q.event, false)] else s.answers)
    case IngestCrash(r) => WithReq(s, r, Closed)
    case Take(i, w) =>
      s.(ready := s.ready[..i] + s.ready[i + 1..], slots := s.slots[w := Busy(s.ready[i], Starting)])
    case Begin(w, ok) => WithPc(s, w, FirstPc(world.fees, s.slots[w].msg.event, ok))
    case Post(w, fault) =>
      var (ledger, outcome) := Attempt(s.ledger, MoveOf(world.fees, s.slots[w].msg.event), fault);
      WithPc(s, w, PcAfter(outcome, s.slots[w].pc.attempt)).(ledger := ledger)
    case MarkDone(w, write) =>
      var e := s.slots[w].msg.event;
      var status := if s.slots[w].pc.MarkingProcessed? then Processed else NoMoneyMoved;
      WithPc(s, w, if write.Wrote? then Acking else Failing).(
        rows := if write.NotWritten? then s.rows else Marked(s.rows, e, status))
    case Fail(w) =>
      var m := s.slots[w].msg;
      if m.retries < MAX_RETRIES then Published(WithPc(s, w, Acking), Msg(m.event, m.retries + 1))
      else WithPc(s, w, DeadLettering)
    case DeadLetter(w, write) =>
      var e := s.slots[w].msg.event;
      if write.NotWritten? then WithPc(s, w, Acking).(stranded := s.stranded + {e.id})
      else WithPc(s, w, Acking).(rows := Marked(s.rows, e, Failed))
    case Ack(w) => s.(slots := s.slots[w := Idle])
    case WorkerCrash(w) => Published(s.(slots := s.slots[w := Idle]), s.slots[w].msg)
    case Redeliver(w) => Published(s, s.slots[w].msg)
    case Redrive(id) => Published(s, Msg(s.rows[id].payload, 0))
    case Approve(t) => s.(ledger := s.ledger + [t])
  }

  ghost predicate Next(world: World, states: seq<State>, steps: seq<Step>, i: nat)
    requires |states| == |steps| + 1 && i < |steps|
  {
    Can(world, states[i], steps[i]) && states[i + 1] == Apply(world, states[i], steps[i])
  }

  /** The states a run goes through, one more than its steps. */
  ghost predicate Trace(world: World, states: seq<State>, steps: seq<Step>) {
    |states| == |steps| + 1 && forall i :: 0 <= i < |steps| ==> Next(world, states, steps, i)
  }

  ghost predicate Along(world: World, states: seq<State>, steps: seq<Step>, s1: State, s2: State) {
    Trace(world, states, steps) && states[0] == s1 && states[|steps|] == s2
  }

  /** s2 comes out of s1 by exactly these steps. */
  ghost predicate Run(world: World, s1: State, steps: seq<Step>, s2: State) {
    exists states :: Along(world, states, steps, s1, s2)
  }

  ghost predicate Reachable(world: World, s: State) {
    exists workers, steps :: Run(world, Start(workers), steps, s)
  }

  lemma {:induction false} ReachableNext(world: World, s: State, step: Step)
    requires Reachable(world, s) && Can(world, s, step)
    ensures Reachable(world, Apply(world, s, step))
  {
    var workers, steps :| Run(world, Start(workers), steps, s);
    var states :| Along(world, states, steps, Start(workers), s);
    var s2 := Apply(world, s, step);
    var states2, steps2 := states + [s2], steps + [step];
    forall i | 0 <= i < |steps2| ensures Next(world, states2, steps2, i) {
      if i < |steps| {
        assert Next(world, states, steps, i);
      }
    }
    assert Along(world, states2, steps2, Start(workers), s2);
    assert Run(world, Start(workers), steps2, s2);
  }

  // ------------------------------------------------------- building runs --

  lemma {:induction false} RunConcat(world: World, s0: State, xs: seq<Step>, s1: State, ys: seq<Step>, s2: State)
    requires Run(world, s0, xs, s1) && Run(world, s1, ys, s2)
    ensures Run(world, s0, xs + ys, s2)
  {
    var before: seq<State> :| Along(world, before, xs, s0, s1);
    var after: seq<State> :| Along(world, after, ys, s1, s2);
    var states, steps := before + after[1..], xs + ys;
    forall i | 0 <= i < |steps| ensures Next(world, states, steps, i) {
      if i < |xs| {
        assert Next(world, before, xs, i);
      } else {
        assert Next(world, after, ys, i - |xs|);
      }
    }
    assert Along(world, states, steps, s0, s2);
  }

  lemma {:induction false} OneStep(world: World, s: State, step: Step)
    requires Can(world, s, step)
    ensures Run(world, s, [step], Apply(world, s, step))
  {
    var states := [s, Apply(world, s, step)];
    assert Next(world, states, [step], 0);
    assert Along(world, states, [step], s, Apply(world, s, step));
  }

  lemma {:induction false} TwoSteps(world: World, s0: State, a: Step, s1: State, b: Step, s2: State)
    requires Can(world, s0, a) && s1 == Apply(world, s0, a)
    requires Can(world, s1, b) && s2 == Apply(world, s1, b)
    ensures Run(world, s0, [a, b], s2)
  {
    OneStep(world, s0, a);
    OneStep(world, s1, b);
    RunConcat(world, s0, [a], s1, [b], s2);
    assert [a] + [b] == [a, b];
  }

  lemma {:induction false} ThreeSteps(world: World, s0: State, a: Step, s1: State, b: Step, s2: State, c: Step, s3: State)
    requires Can(world, s0, a) && s1 == Apply(world, s0, a)
    requires Can(world, s1, b) && s2 == Apply(world, s1, b)
    requires Can(world, s2, c) && s3 == Apply(world, s2, c)
    ensures Run(world, s0, [a, b, c], s3)
  {
    TwoSteps(world, s0, a, s1, b, s2);
    OneStep(world, s2, c);
    RunConcat(world, s0, [a, b], s2, [c], s3);
    assert [a, b] + [c] == [a, b, c];
  }
}
