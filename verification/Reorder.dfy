/** The proxy's reorder buffer (harness/proxy.py): submits that buffer, flush and
    time out, interleaved at every await. */
module Reorder {
  import opened Wrappers

  // Where a submit stands. A flusher walks its batch from the back: batch[from..] has
  // been put on the wire.
  datatype Pc =
    | Fresh
    | Flushing | OnWire
    | Waiting | TimedOut | WaitingAgain
    | SoloReady | SoloOnWire
    | Returned | Raised

  datatype Task = Task(pc: Pc, batch: seq<nat>, from: nat, done: bool)

  // Who has claimed a plan (history): nobody, the buffer, a flush, or its own submit.
  datatype Place = Nowhere | InBuffer | InBatch(flusher: nat, pos: nat) | Alone

  datatype Sent = Sent(plan: nat, sender: nat)

  datatype State = State(
    tasks: seq<Task>, buffer: seq<nat>, sent: seq<Sent>,
    place: seq<Place>, arrival: seq<nat>, arrivals: nat)  // the last three are history

  const NEW: Task := Task(Fresh, [], 0, false)

  function Start(m: nat): State {
    State(seq(m, (i: int) => NEW), [], [], seq(m, (i: int) => Nowhere), seq(m, (i: int) => 0), 0)
  }

  datatype Step =
    | Submit(i: nat)
    | Send(i: nat) | SendDone(i: nat) | SendRaises(i: nat)
    | Wake(i: nat) | Timeout(i: nat) | Claim(i: nat)
    | SoloSend(i: nat) | SoloDone(i: nat) | SoloRaises(i: nat)
    | WakeAgain(i: nat) | TimeoutAgain(i: nat)

  predicate Shaped(s: State) {
    |s.place| == |s.tasks| && |s.arrival| == |s.tasks|
  }

  predicate Can(step: Step, s: State) {
    && Shaped(s) && step.i < |s.tasks|
    && var t := s.tasks[step.i];
    match step
    case Submit(_) => t.pc.Fresh?
    case Send(_) => t.pc.Flushing? && 0 < t.from <= |t.batch|
    case SendDone(_) => t.pc.OnWire? && t.from < |t.batch| && t.batch[t.from] < |s.tasks|
    case SendRaises(_) => t.pc.OnWire?
    case Wake(_) => t.pc.Waiting? && t.done
    case Timeout(_) => t.pc.Waiting?
    case Claim(_) => t.pc.TimedOut?
    case SoloSend(_) => t.pc.SoloReady?
    case SoloDone(_) | SoloRaises(_) => t.pc.SoloOnWire?
    case WakeAgain(_) => t.pc.WaitingAgain? && t.done
    case TimeoutAgain(_) => t.pc.WaitingAgain?
  }

  function To(s: State, i: nat, t: Task): State
    requires i < |s.tasks|
  {
    s.(tasks := s.tasks[i := t])
  }

  function Without(buffer: seq<nat>, i: nat): seq<nat> {
    if buffer == [] then []
    else if buffer[0] == i then buffer[1..]
    else [buffer[0]] + Without(buffer[1..], i)
  }

  function IndexOf(xs: seq<nat>, x: nat): (p: nat)
    requires x in xs
    ensures p < |xs| && xs[p] == x
  {
    if xs[0] == x then 0 else 1 + IndexOf(xs[1..], x)
  }

  /** The places after a flush by i has taken the batch. */
  function Taken(place: seq<Place>, batch: seq<nat>, i: nat): (r: seq<Place>)
    ensures |r| == |place|
  {
    seq(|place|, (x: int) requires 0 <= x < |place| => if x in batch then InBatch(i, IndexOf(batch, x)) else place[x])
  }

  /** n is the size at which the buffer is flushed. */
  function Apply(n: nat, step: Step, s: State): State
    requires Can(step, s)
  {
    var i := step.i;
    var t := s.tasks[i];
    match step
    case Submit(_) =>
      var buffer := s.buffer + [i];
      var s' := s.(arrival := s.arrival[i := s.arrivals], arrivals := s.arrivals + 1);
      if |buffer| >= n then
        To(s', i, t.(pc := Flushing, batch := buffer, from := |buffer|))
        .(buffer := [], place := Taken(s.place, buffer, i))
      else To(s', i, t.(pc := Waiting)).(buffer := buffer, place := s.place[i := InBuffer])
    case Send(_) =>
      To(s, i, t.(pc := OnWire, from := t.from - 1)).(sent := s.sent + [Sent(t.batch[t.from - 1], i)])
    case SendDone(_) =>
      var held := t.batch[t.from];
      var mid := To(s, held, s.tasks[held].(done := true));
      To(mid, i, mid.tasks[i].(pc := if t.from == 0 then Returned else Flushing))
    case SendRaises(_) => To(s, i, t.(pc := Raised))
    case Wake(_) => To(s, i, t.(pc := Returned))
    case Timeout(_) => To(s, i, t.(pc := TimedOut))
    case Claim(_) =>
      if i in s.buffer then
        To(s, i, t.(pc := SoloReady)).(buffer := Without(s.buffer, i), place := s.place[i := Alone])
      else To(s, i, t.(pc := WaitingAgain))
    case SoloSend(_) => To(s, i, t.(pc := SoloOnWire)).(sent := s.sent + [Sent(i, i)])
    case SoloDone(_) => To(s, i, t.(pc := Returned, done := true))
    case SoloRaises(_) => To(s, i, t.(pc := Raised))
    case WakeAgain(_) => To(s, i, t.(pc := Returned))
    case TimeoutAgain(_) => To(s, i, t.(pc := Raised))
  }

  ghost predicate Next(n: nat, states: seq<State>, steps: seq<Step>, i: nat)
    requires i < |steps| && |states| == |steps| + 1
  {
    Can(steps[i], states[i]) && states[i + 1] == Apply(n, steps[i], states[i])
  }

  ghost predicate Run(n: nat, m: nat, states: seq<State>, steps: seq<Step>) {
    && |states| == |steps| + 1
    && states[0] == Start(m)
    && forall i {:trigger Next(n, states, steps, i)} :: 0 <= i < |steps| ==> Next(n, states, steps, i)
  }

  // ----------------------------------------------------------- invariant --

  function Times(sent: seq<Sent>, plan: nat): nat {
    if sent == [] then 0
    else Times(sent[..|sent| - 1], plan) + if sent[|sent| - 1].plan == plan then 1 else 0
  }

  function SentBy(sent: seq<Sent>, sender: nat): seq<nat> {
    if sent == [] then []
    else
      var x := sent[|sent| - 1];
      SentBy(sent[..|sent| - 1], sender) + if x.sender == sender then [x.plan] else []
  }

  function Reversed(xs: seq<nat>): seq<nat> {
    if xs == [] then [] else Reversed(xs[1..]) + [xs[0]]
  }

  /** Whether a claimed plan has been put on the wire yet. */
  predicate OnTheWire(s: State, i: nat)
    requires Shaped(s) && i < |s.tasks|
  {
    match s.place[i]
    case Nowhere | InBuffer => false
    case InBatch(j, p) => j < |s.tasks| && p >= s.tasks[j].from
    case Alone => !s.tasks[i].pc.SoloReady?
  }

  /** The stages a submit can be at, given who claimed its plan. */
  predicate StageFits(place: Place, t: Task, i: nat, wire: bool) {
    match place
    case Nowhere => t == NEW
    case InBuffer => (t.pc.Waiting? || t.pc.TimedOut?) && t.batch == [] && !t.done
    case InBatch(j, _) =>
      && (t.done || t.pc.Returned? ==> wire)
      && !t.pc.Fresh? && !t.pc.SoloReady? && !t.pc.SoloOnWire?
      && (t.batch == [] ==> !t.pc.Flushing? && !t.pc.OnWire?)
      && (t.batch != [] ==> j == i)
    case Alone => t.batch == [] && (t.pc.SoloReady? || t.pc.SoloOnWire? || t.pc.Returned? || t.pc.Raised?)
  }

  /** A plan's claim, its submit's stage and how often it has been sent agree. */
  ghost predicate PlanInv(s: State, i: nat)
    requires Shaped(s) && i < |s.tasks|
  {
    && StageFits(s.place[i], s.tasks[i], i, OnTheWire(s, i))
    && Times(s.sent, i) == (if OnTheWire(s, i) then 1 else 0)
    && (i in s.buffer <==> s.place[i].InBuffer?)
    && (s.place[i].InBatch? ==>
          var j, p := s.place[i].flusher, s.place[i].pos;
          j < |s.tasks| && p < |s.tasks[j].batch| && s.tasks[j].batch[p] == i)
  }

  /** A flusher's stage and how much of its batch is left. */
  predicate FlushPc(n: nat, t: Task) {
    && |t.batch| >= n && t.from <= |t.batch|
    && (t.pc.Flushing? || t.pc.OnWire? || t.pc.Returned? || t.pc.Raised?)
    && (t.pc.Flushing? ==> t.from > 0)
    && (t.pc.OnWire? ==> t.from < |t.batch|)
    && (t.pc.Returned? ==> t.from == 0)
  }

  ghost predicate Owns(place: seq<Place>, batch: seq<nat>, j: nat) {
    forall p :: 0 <= p < |batch| ==> batch[p] < |place| && place[batch[p]] == InBatch(j, p)
  }

  /** A flusher holds its batch, and has sent the back of it, last arrival first. */
  ghost predicate FlushInv(n: nat, s: State, j: nat)
    requires Shaped(s) && j < |s.tasks|
  {
    var t := s.tasks[j];
    t.batch != [] ==>
      && FlushPc(n, t)
      && Owns(s.place, t.batch, j)
      && Ordered(s.arrival, t.batch)
      && SentBy(s.sent, j) == Reversed(t.batch[t.from..])
  }

  /** Plans in the order their submits arrived. */
  ghost predicate Ordered(arrival: seq<nat>, plans: seq<nat>) {
    && (forall p :: 0 <= p < |plans| ==> plans[p] < |arrival|)
    && (forall p, q :: 0 <= p < q < |plans| ==> arrival[plans[p]] < arrival[plans[q]])
  }

  ghost predicate SentInv(s: State, k: nat)
    requires Shaped(s) && k < |s.sent|
  {
    var x := s.sent[k];
    && x.plan < |s.tasks| && x.sender < |s.tasks|
    && match s.place[x.plan]
       case Alone => x.sender == x.plan
       case InBatch(j, _) => x.sender == j
       case _ => false
  }

  ghost predicate Inv(n: nat, s: State) {
    && Shaped(s)
    && Ordered(s.arrival, s.buffer)
    && (forall p :: 0 <= p < |s.buffer| ==> s.place[s.buffer[p]] == InBuffer && s.arrival[s.buffer[p]] < s.arrivals)
    && (forall i: nat {:trigger PlanInv(s, i)} :: i < |s.tasks| ==> PlanInv(s, i))
    && (forall j: nat {:trigger FlushInv(n, s, j)} :: j < |s.tasks| ==> FlushInv(n, s, j))
    && (forall k: nat {:trigger SentInv(s, k)} :: k < |s.sent| ==> SentInv(s, k))
  }

  // -------------------------------------------------------------- steps --

  lemma {:induction false} TimesLast(sent: seq<Sent>, x: Sent, plan: nat)
    ensures Times(sent + [x], plan) == Times(sent, plan) + if x.plan == plan then 1 else 0
  {
    assert (sent + [x])[..|sent|] == sent;
  }

  lemma {:induction false} SentByLast(sent: seq<Sent>, x: Sent, sender: nat)
    ensures SentBy(sent + [x], sender) == SentBy(sent, sender) + if x.sender == sender then [x.plan] else []
  {
    assert (sent + [x])[..|sent|] == sent;
  }

  lemma {:induction false} SentByNone(sent: seq<Sent>, sender: nat)
    requires forall k :: 0 <= k < |sent| ==> sent[k].sender != sender
    ensures SentBy(sent, sender) == []
  {
    if sent != [] {
      SentByNone(sent[..|sent| - 1], sender);
    }
  }

  lemma {:induction false} TakenIs(place: seq<Place>, batch: seq<nat>, i: nat)
    requires forall p :: 0 <= p < |batch| ==> batch[p] < |place|
    requires forall p, q :: 0 <= p < q < |batch| ==> batch[p] != batch[q]
    ensures forall p :: 0 <= p < |batch| ==> Taken(place, batch, i)[batch[p]] == InBatch(i, p)
    ensures forall x :: 0 <= x < |place| && x !in batch ==> Taken(place, batch, i)[x] == place[x]
  {
  }

  lemma {:induction false} WithoutIs(arrival: seq<nat>, buffer: seq<nat>, i: nat)
    requires Ordered(arrival, buffer) && i in buffer
    ensures Ordered(arrival, Without(buffer, i))
    ensures forall x :: x in Without(buffer, i) <==> x in buffer && x != i
  {
    if buffer[0] != i {
      WithoutIs(arrival, buffer[1..], i);
      var rest := Without(buffer[1..], i);
      forall p | 0 <= p < |rest| ensures arrival[buffer[0]] < arrival[rest[p]] {
        assert rest[p] in buffer[1..];
      }
    } else {
      assert forall x :: x in buffer <==> x == buffer[0] || x in buffer[1..];
    }
  }

  lemma {:induction false} OrderedDistinct(arrival: seq<nat>, plans: seq<nat>)
    requires Ordered(arrival, plans)
    ensures forall p, q :: 0 <= p < q < |plans| ==> plans[p] != plans[q]
  {
  }

  lemma {:induction false} OrderedSame(arrival: seq<nat>, after: seq<nat>, plans: seq<nat>)
    requires Ordered(arrival, plans) && |after| == |arrival|
    requires forall x :: x in plans ==> after[x] == arrival[x]
    ensures Ordered(after, plans)
  {
  }

  lemma {:induction false} ReversedFront(xs: seq<nat>, k: nat)
    requires k < |xs|
    ensures Reversed(xs[k..]) == Reversed(xs[k + 1..]) + [xs[k]]
  {
    assert xs[k..][1..] == xs[k + 1..];
  }

  lemma {:induction false} PlaceAtSubmit(n: nat, s: State, i: nat, v: nat)
    requires Inv(n, s) && Can(Submit(i), s) && v < |s.tasks|
    ensures var after, buffer := Apply(n, Submit(i), s), s.buffer + [i];
      && |after.place| == |s.tasks|
      && (v != i && v !in s.buffer ==> after.place[v] == s.place[v])
      && (v in buffer && |buffer| < n ==> after.place[v] == InBuffer)
      && (v in buffer && |buffer| >= n ==> after.place[v] == InBatch(i, IndexOf(buffer, v)))
  {
    assert PlanInv(s, v);
  }

  lemma {:induction false} PlanSubmit(n: nat, s: State, i: nat, v: nat)
    requires Inv(n, s) && Can(Submit(i), s) && v < |s.tasks|
    ensures PlanInv(Apply(n, Submit(i), s), v)
  {
    hide IndexOf, FlushInv;
    assert PlanInv(s, i) && PlanInv(s, v);
    PlaceAtSubmit(n, s, i, v);
    var buffer := s.buffer + [i];
    if v in buffer {
      assert buffer[IndexOf(buffer, v)] == v;
    } else if s.place[v].InBatch? {
      assert s.place[v].flusher != i;
    }
  }

  /** A flusher whose batch, and its members' places and arrivals, a step leaves alone. */
  lemma {:induction false} FlushSame(n: nat, s: State, after: State, j: nat)
    requires Shaped(s) && Shaped(after) && |after.tasks| == |s.tasks| && j < |s.tasks|
    requires FlushInv(n, s, j)
    requires var t, u := s.tasks[j], after.tasks[j];
      u.batch == t.batch && u.from == t.from && (t.batch != [] && FlushPc(n, t) ==> FlushPc(n, u))
    requires forall p :: 0 <= p < |s.tasks[j].batch| && s.tasks[j].batch[p] < |s.place| ==>
      && after.place[s.tasks[j].batch[p]] == s.place[s.tasks[j].batch[p]]
      && after.arrival[s.tasks[j].batch[p]] == s.arrival[s.tasks[j].batch[p]]
    requires SentBy(after.sent, j) == SentBy(s.sent, j)
    ensures FlushInv(n, after, j)
  {
  }

  lemma {:induction false} OtherFlushAtSubmit(n: nat, s: State, i: nat, j: nat)
    requires Inv(n, s) && Can(Submit(i), s) && j < |s.tasks| && j != i
    ensures FlushInv(n, Apply(n, Submit(i), s), j)
  {
    hide Taken;
    var after, batch := Apply(n, Submit(i), s), s.tasks[j].batch;
    assert PlanInv(s, i) && FlushInv(n, s, j);
    if |s.buffer + [i]| >= n {
      OrderedDistinct(s.arrival, s.buffer);
      TakenIs(s.place, s.buffer + [i], i);
    }
    forall p | 0 <= p < |batch| ensures batch[p] != i && batch[p] !in s.buffer {
      assert s.place[batch[p]] == InBatch(j, p);
    }
    FlushSame(n, s, after, j);
  }

  lemma {:induction false} NothingSentBy(n: nat, s: State, i: nat)
    requires Inv(n, s) && i < |s.tasks| && s.tasks[i] == NEW
    ensures SentBy(s.sent, i) == []
  {
    assert PlanInv(s, i);
    forall k | 0 <= k < |s.sent| ensures s.sent[k].sender != i {
      assert SentInv(s, k);
      assert PlanInv(s, s.sent[k].plan);
    }
    SentByNone(s.sent, i);
  }

  lemma {:induction false} BufferGrows(n: nat, s: State, i: nat)
    requires Inv(n, s) && i < |s.tasks| && s.tasks[i] == NEW
    ensures Ordered(s.arrival[i := s.arrivals], s.buffer + [i])
    ensures i !in s.buffer
  {
    assert PlanInv(s, i);
    OrderedSame(s.arrival, s.arrival[i := s.arrivals], s.buffer);
  }

  lemma {:induction false} OwnFlushAtSubmit(n: nat, s: State, i: nat)
    requires Inv(n, s) && Can(Submit(i), s)
    ensures FlushInv(n, Apply(n, Submit(i), s), i)
  {
    assert PlanInv(s, i);
    var batch := s.buffer + [i];
    if |batch| >= n {
      BufferGrows(n, s, i);
      OrderedDistinct(s.arrival, s.buffer);
      TakenIs(s.place, batch, i);
      NothingSentBy(n, s, i);
      hide PlanInv, SentInv;
      assert batch[|batch|..] == [];
    }
  }

  lemma {:induction false} SentAtSubmit(n: nat, s: State, i: nat, k: nat)
    requires Inv(n, s) && Can(Submit(i), s) && k < |s.sent|
    ensures SentInv(Apply(n, Submit(i), s), k)
  {
    assert SentInv(s, k) && PlanInv(s, i) && PlanInv(s, s.sent[k].plan);
    PlaceAtSubmit(n, s, i, s.sent[k].plan);
  }

  lemma {:induction false} SubmitStep(n: nat, s: State, i: nat)
    requires Inv(n, s) && Can(Submit(i), s)
    ensures Inv(n, Apply(n, Submit(i), s))
  {
    var after := Apply(n, Submit(i), s);
    assert PlanInv(s, i);
    BufferGrows(n, s, i);
    forall v: nat | v < |after.tasks| ensures PlanInv(after, v) {
      PlanSubmit(n, s, i, v);
    }
    forall j: nat | j < |after.tasks| ensures FlushInv(n, after, j) {
      if j == i {
        OwnFlushAtSubmit(n, s, i);
      } else {
        OtherFlushAtSubmit(n, s, i, j);
      }
    }
    forall k: nat | k < |after.sent| ensures SentInv(after, k) {
      SentAtSubmit(n, s, i, k);
    }
  }

  lemma {:induction false} SendPlan(n: nat, s: State, i: nat, v: nat)
    requires Inv(n, s) && Can(Send(i), s) && v < |s.tasks|
    ensures PlanInv(Apply(n, Send(i), s), v)
  {
    hide Times;
    var t := s.tasks[i];
    assert PlanInv(s, v) && FlushInv(n, s, i);
    TimesLast(s.sent, Sent(t.batch[t.from - 1], i), v);
  }

  lemma {:induction false} SendFlush(n: nat, s: State, i: nat, j: nat)
    requires Inv(n, s) && Can(Send(i), s) && j < |s.tasks|
    ensures FlushInv(n, Apply(n, Send(i), s), j)
  {
    var t, after := s.tasks[i], Apply(n, Send(i), s);
    assert FlushInv(n, s, j);
    SentByLast(s.sent, Sent(t.batch[t.from - 1], i), j);
    if j == i {
      ReversedFront(t.batch, t.from - 1);
    } else {
      FlushSame(n, s, after, j);
    }
  }

  lemma {:induction false} SendStep(n: nat, s: State, i: nat)
    requires Inv(n, s) && Can(Send(i), s)
    ensures Inv(n, Apply(n, Send(i), s))
  {
    var t, after := s.tasks[i], Apply(n, Send(i), s);
    assert FlushInv(n, s, i);
    forall v: nat | v < |after.tasks| ensures PlanInv(after, v) {
      SendPlan(n, s, i, v);
    }
    forall j: nat | j < |after.tasks| ensures FlushInv(n, after, j) {
      SendFlush(n, s, i, j);
    }
    forall k: nat | k < |after.sent| ensures SentInv(after, k) {
      if k < |s.sent| {
        assert SentInv(s, k);
      }
    }
  }

  lemma {:induction false} SoloSendPlan(n: nat, s: State, i: nat, v: nat)
    requires Inv(n, s) && Can(SoloSend(i), s) && v < |s.tasks|
    ensures PlanInv(Apply(n, SoloSend(i), s), v)
  {
    assert PlanInv(s, v) && PlanInv(s, i);
    TimesLast(s.sent, Sent(i, i), v);
  }

  lemma {:induction false} SoloSendFlush(n: nat, s: State, i: nat, j: nat)
    requires Inv(n, s) && Can(SoloSend(i), s) && j < |s.tasks|
    ensures FlushInv(n, Apply(n, SoloSend(i), s), j)
  {
    assert FlushInv(n, s, j) && PlanInv(s, i);
    if j != i {
      SentByLast(s.sent, Sent(i, i), j);
      FlushSame(n, s, Apply(n, SoloSend(i), s), j);
    }
  }

  lemma {:induction false} SoloSendStep(n: nat, s: State, i: nat)
    requires Inv(n, s) && Can(SoloSend(i), s)
    ensures Inv(n, Apply(n, SoloSend(i), s))
  {
    var after := Apply(n, SoloSend(i), s);
    assert PlanInv(s, i);
    forall v: nat | v < |after.tasks| ensures PlanInv(after, v) {
      SoloSendPlan(n, s, i, v);
    }
    forall j: nat | j < |after.tasks| ensures FlushInv(n, after, j) {
      SoloSendFlush(n, s, i, j);
    }
    forall k: nat | k < |after.sent| ensures SentInv(after, k) {
      if k < |s.sent| {
        assert SentInv(s, k);
      }
    }
  }

  lemma {:induction false} ClaimStep(n: nat, s: State, i: nat)
    requires Inv(n, s) && Can(Claim(i), s) && i in s.buffer
    ensures Inv(n, Apply(n, Claim(i), s))
  {
    var after := Apply(n, Claim(i), s);
    WithoutIs(s.arrival, s.buffer, i);
    assert PlanInv(s, i);
    forall p | 0 <= p < |after.buffer| ensures after.place[after.buffer[p]] == InBuffer && after.arrival[after.buffer[p]] < after.arrivals {
      assert after.buffer[p] in s.buffer;
    }
    forall v: nat | v < |after.tasks| ensures PlanInv(after, v) {
      assert PlanInv(s, v);
    }
    forall j: nat | j < |after.tasks| ensures FlushInv(n, after, j) {
      assert FlushInv(n, s, j);
    }
    forall k: nat | k < |after.sent| ensures SentInv(after, k) {
      assert SentInv(s, k);
    }
  }

  /** The steps that send nothing and claim nothing. */
  predicate Local(step: Step, s: State) {
    && !step.Submit? && !step.Send? && !step.SoloSend?
    && (step.Claim? ==> step.i !in s.buffer)
  }

  lemma {:induction false} LocalTask(n: nat, step: Step, s: State, j: nat)
    requires Inv(n, s) && Can(step, s) && Local(step, s) && j < |s.tasks|
    ensures var t, after := s.tasks[j], Apply(n, step, s);
      && Shaped(after) && |after.tasks| == |s.tasks|
      && after.tasks[j].batch == t.batch && after.tasks[j].from == t.from
      && after.place == s.place && after.arrival == s.arrival && after.sent == s.sent && after.buffer == s.buffer
      && (t.batch != [] && FlushPc(n, t) ==> FlushPc(n, after.tasks[j]))
  {
    assert PlanInv(s, step.i);
  }

  lemma {:induction false} LocalStage(n: nat, step: Step, s: State, v: nat)
    requires Inv(n, s) && Can(step, s) && Local(step, s) && v < |s.tasks|
    requires |Apply(n, step, s).tasks| == |s.tasks|
    ensures StageFits(s.place[v], Apply(n, step, s).tasks[v], v, OnTheWire(s, v))
    ensures Apply(n, step, s).tasks[v].pc.SoloReady? <==> s.tasks[v].pc.SoloReady?
  {
    assert PlanInv(s, v) && PlanInv(s, step.i) && FlushInv(n, s, step.i);
  }

  lemma {:induction false} LocalPlan(n: nat, step: Step, s: State, v: nat)
    requires Inv(n, s) && Can(step, s) && Local(step, s) && v < |s.tasks|
    ensures PlanInv(Apply(n, step, s), v)
  {
    LocalTask(n, step, s, v);
    LocalStage(n, step, s, v);
    assert PlanInv(s, v);
    if s.place[v].InBatch? {
      LocalTask(n, step, s, s.place[v].flusher);
    }
  }

  lemma {:induction false} LocalFlush(n: nat, step: Step, s: State, j: nat)
    requires Inv(n, s) && Can(step, s) && Local(step, s) && j < |s.tasks|
    ensures FlushInv(n, Apply(n, step, s), j)
  {
    assert FlushInv(n, s, j);
    LocalTask(n, step, s, j);
    FlushSame(n, s, Apply(n, step, s), j);
  }

  lemma {:induction false} LocalStep(n: nat, step: Step, s: State)
    requires Inv(n, s) && Can(step, s) && Local(step, s)
    ensures Inv(n, Apply(n, step, s))
  {
    var after := Apply(n, step, s);
    forall v: nat | v < |after.tasks| ensures PlanInv(after, v) {
      LocalPlan(n, step, s, v);
    }
    forall j: nat | j < |after.tasks| ensures FlushInv(n, after, j) {
      LocalFlush(n, step, s, j);
    }
    forall k: nat | k < |after.sent| ensures SentInv(after, k) {
      assert SentInv(s, k);
    }
  }

  lemma {:induction false} RunKeepsInv(n: nat, m: nat, states: seq<State>, steps: seq<Step>, k: nat)
    requires Run(n, m, states, steps) && k < |states|
    ensures Inv(n, states[k]) && |states[k].tasks| == m
  {
    if k == 0 {
      forall v: nat | v < m ensures PlanInv(Start(m), v) && FlushInv(n, Start(m), v) {
      }
    } else {
      RunKeepsInv(n, m, states, steps, k - 1);
      assert Next(n, states, steps, k - 1);
      var step, s := steps[k - 1], states[k - 1];
      if step.Submit? {
        SubmitStep(n, s, step.i);
      } else if step.Send? {
        SendStep(n, s, step.i);
      } else if step.SoloSend? {
        SoloSendStep(n, s, step.i);
      } else if step.Claim? && step.i in s.buffer {
        ClaimStep(n, s, step.i);
      } else {
        LocalStep(n, step, s);
      }
    }
  }

  // --------------------------------------------------------- the results --

  /** In every interleaving a plan is forwarded at most once, by the one party that
      claimed it; and a submit that has returned has had its plan forwarded. */
  lemma {:induction false} ForwardedAtMostOnce(
      n: nat, m: nat, states: seq<State>, steps: seq<Step>, k: nat, i: nat)
    requires Run(n, m, states, steps) && k < |states| && i < m
    ensures |states[k].tasks| == m
    ensures Times(states[k].sent, i) <= 1
    ensures states[k].tasks[i].pc.Returned? ==> Times(states[k].sent, i) == 1
  {
    RunKeepsInv(n, m, states, steps, k);
    assert PlanInv(states[k], i) && FlushInv(n, states[k], i);
  }

  /** Once every submit has returned, every plan has been forwarded exactly once. */
  lemma {:induction false} AllReturnedAllForwarded(n: nat, m: nat, states: seq<State>, steps: seq<Step>)
    requires Run(n, m, states, steps)
    requires forall i :: 0 <= i < |states[|steps|].tasks| ==> states[|steps|].tasks[i].pc.Returned?
    ensures forall i: nat :: i < m ==> Times(states[|steps|].sent, i) == 1
  {
    forall i: nat | i < m ensures Times(states[|steps|].sent, i) == 1 {
      ForwardedAtMostOnce(n, m, states, steps, |steps|, i);
    }
  }

  /** A claim, once made, is never made again by another party. */
  lemma {:induction false} ClaimsAreFinal(
      n: nat, m: nat, states: seq<State>, steps: seq<Step>, k: nat, l: nat, i: nat)
    requires Run(n, m, states, steps) && k <= l < |states| && i < m
    ensures |states[k].place| == |states[l].place| == m
    ensures states[k].place[i].InBatch? || states[k].place[i].Alone? ==> states[l].place[i] == states[k].place[i]
    decreases l - k
  {
    RunKeepsInv(n, m, states, steps, k);
    RunKeepsInv(n, m, states, steps, l);
    if k < l {
      ClaimsAreFinal(n, m, states, steps, k, l - 1, i);
      RunKeepsInv(n, m, states, steps, l - 1);
      assert Next(n, states, steps, l - 1);
      var step, s := steps[l - 1], states[l - 1];
      assert PlanInv(s, i) && PlanInv(s, step.i);
      if step.Submit? {
        assert i !in s.buffer + [step.i] || !(s.place[i].InBatch? || s.place[i].Alone?);
      }
    }
  }

  /** The party that puts a plan on the wire is the one that claimed it. */
  lemma {:induction false} SenderIsClaimant(
      n: nat, m: nat, states: seq<State>, steps: seq<Step>, k: nat, e: nat)
    requires Run(n, m, states, steps) && k < |states| && e < |states[k].sent|
    ensures var x := states[k].sent[e];
      && x.plan < |states[k].place|
      && match states[k].place[x.plan]
         case Alone => x.sender == x.plan
         case InBatch(j, _) => x.sender == j
         case _ => false
  {
    RunKeepsInv(n, m, states, steps, k);
    assert SentInv(states[k], e);
  }

  /** The size of a flush: n, or one where n is none. */
  function FlushSize(n: nat): nat {
    if n > 0 then n else 1
  }

  /** The buffer is short of a flush, and every batch is exactly one. */
  ghost predicate Full(n: nat, s: State) {
    && |s.buffer| < FlushSize(n)
    && forall j :: 0 <= j < |s.tasks| && s.tasks[j].batch != [] ==> |s.tasks[j].batch| == FlushSize(n)
  }

  lemma {:induction false} WithoutIsShorter(buffer: seq<nat>, i: nat)
    ensures |Without(buffer, i)| <= |buffer|
    ensures i in buffer ==> |Without(buffer, i)| == |buffer| - 1
  {
    if buffer != [] && buffer[0] != i {
      WithoutIsShorter(buffer[1..], i);
    }
  }

  lemma {:induction false} FullStep(n: nat, step: Step, s: State)
    requires Can(step, s) && Full(n, s)
    ensures Full(n, Apply(n, step, s))
  {
    hide Taken, Without;
    WithoutIsShorter(s.buffer, step.i);
  }

  /** In every run the buffer never holds as many plans as flush it, and a flush takes
      exactly that many: the n-th submit flushes, and no earlier. */
  lemma {:induction false} FlushesAtSize(n: nat, m: nat, states: seq<State>, steps: seq<Step>, k: nat)
    requires Run(n, m, states, steps) && k < |states|
    ensures |states[k].buffer| < FlushSize(n)
    ensures forall j :: 0 <= j < |states[k].tasks| && states[k].tasks[j].batch != [] ==>
      |states[k].tasks[j].batch| == if n > 0 then n else 1
  {
    if k > 0 {
      FlushesAtSize(n, m, states, steps, k - 1);
      assert Next(n, states, steps, k - 1);
      FullStep(n, steps[k - 1], states[k - 1]);
    }
  }

  /** A submit that flushed and returned has forwarded its whole batch, n plans, in the
      reverse of the order in which they arrived. */
  lemma {:induction false} FlushedInReverse(
      n: nat, m: nat, states: seq<State>, steps: seq<Step>, k: nat, j: nat)
    requires Run(n, m, states, steps) && k < |states| && j < m
    requires j < |states[k].tasks| && states[k].tasks[j].batch != [] && states[k].tasks[j].pc.Returned?
    ensures var batch := states[k].tasks[j].batch;
      && |batch| == (if n > 0 then n else 1) && Ordered(states[k].arrival, batch)
      && SentBy(states[k].sent, j) == Reversed(batch)
  {
    RunKeepsInv(n, m, states, steps, k);
    FlushesAtSize(n, m, states, steps, k);
    assert FlushInv(n, states[k], j);
    assert states[k].tasks[j].batch[0..] == states[k].tasks[j].batch;
  }
}
