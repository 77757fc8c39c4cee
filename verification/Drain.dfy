/** Every worker run ends: a measure that each worker step spends and only a
    fresh or returned message refills. */
module Drain {
  import opened Wrappers
  import opened Sums
  import opened Ledger
  import opened Mapping
  import opened Protocol
  import opened Invariant

  // One attempt of process_event takes fewer than this many steps, and a message is
  // good for MAX_RETRIES + 1 attempts.
  const ATTEMPT := 12
  const MESSAGE := ATTEMPT * (MAX_RETRIES + 1)

  predicate WorkerStep(step: Step) {
    step.Take? || step.Begin? || step.Post? || step.MarkDone? || step.Fail? || step.DeadLetter? || step.Ack?
  }

  /** Steps that put a message on the queue: an enqueue, a redrive, a crash or a
      redelivery. */
  predicate Refills(step: Step) {
    step.Enqueue? || step.EnqueueRaises? || step.WorkerCrash? || step.Redeliver? || step.Redrive?
  }

  function One(b: bool): int {
    if b then 1 else 0
  }

  /** How many of the first n steps are worker steps, and how many refill. */
  function Works(steps: seq<Step>, n: nat): int
    requires n <= |steps|
  {
    if n == 0 then 0 else Works(steps, n - 1) + One(WorkerStep(steps[n - 1]))
  }

  function RefillsIn(steps: seq<Step>, n: nat): int
    requires n <= |steps|
  {
    if n == 0 then 0 else RefillsIn(steps, n - 1) + One(Refills(steps[n - 1]))
  }

  /** The attempts a queued message still has. */
  function MsgWeight(m: Msg): int {
    ATTEMPT * (MAX_RETRIES + 1 - m.retries)
  }

  /** The steps left in the attempt under way, serialization retries included. */
  function PcWeight(pc: Pc): int {
    match pc
    case Starting => 10
    case Posting(attempt) => 4 + (MAX_POST_ATTEMPTS + 1 - attempt)
    case MarkingProcessed => 4
    case MarkingNoMoney => 4
    case Failing => 3
    case DeadLettering => 2
    case Acking => 1
  }

  function SlotWeight(slot: Slot): int {
    if slot.Idle? then 0
    else if slot.pc.Acking? then 1
    else ATTEMPT * (MAX_RETRIES - slot.msg.retries) + PcWeight(slot.pc)
  }

  function Measure(s: State): int {
    Sum(s.ready, MsgWeight) + Sum(s.slots, SlotWeight)
  }

  lemma {:induction false} SumUpdate<T>(xs: seq<T>, i: nat, x: T, f: T -> int)
    requires i < |xs|
    ensures Sum(xs[i := x], f) == Sum(xs, f) - f(xs[i]) + f(x)
  {
    SumRemove(xs, i, f);
    SumRemove(xs[i := x], i, f);
    assert xs[i := x][..i] + xs[i := x][i + 1..] == xs[..i] + xs[i + 1..];
  }

  lemma {:induction false} SumNonNegative<T>(xs: seq<T>, f: T -> int)
    requires forall x :: x in xs ==> f(x) >= 0
    ensures Sum(xs, f) >= 0
  {
    if xs != [] {
      var rest := xs[..|xs| - 1];
      assert forall x :: x in rest ==> x in xs;
      SumNonNegative(rest, f);
    }
  }

  lemma {:induction false} MeasureNonNegative(world: World, s: State)
    requires Inv(world, s)
    ensures Measure(s) >= 0
  {
    SumNonNegative(s.ready, MsgWeight);
    forall slot | slot in s.slots ensures SlotWeight(slot) >= 0 {
      assert SlotFits(world, s, slot);
    }
    SumNonNegative(s.slots, SlotWeight);
  }

  lemma {:induction false} TakeSpends(world: World, s: State, step: Step)
    requires Inv(world, s) && Can(world, s, step) && step.Take?
    ensures Measure(Apply(world, s, step)) < Measure(s)
  {
    var m := s.ready[step.i];
    SumRemove(s.ready, step.i, MsgWeight);
    SumUpdate(s.slots, step.w, Busy(m, Starting), SlotWeight);
  }

  /** What a failed attempt turns into: a message with one more retry, or a dead letter
      to be written. */
  lemma {:induction false} FailTurns(world: World, s: State, w: nat)
    requires Can(world, s, Fail(w))
    ensures var s2, m := Apply(world, s, Fail(w)), s.slots[w].msg;
      if m.retries < MAX_RETRIES
      then s2.ready == s.ready + [Msg(m.event, m.retries + 1)] && s2.slots == s.slots[w := Busy(m, Acking)]
      else s2.ready == s.ready && s2.slots == s.slots[w := Busy(m, DeadLettering)]
  {
  }

  lemma {:induction false} RetrySpends(world: World, s: State, step: Step)
    requires Inv(world, s) && Can(world, s, step) && step.Fail?
    ensures Measure(Apply(world, s, step)) < Measure(s)
  {
    var s2, slot := Apply(world, s, step), s.slots[step.w];
    FailTurns(world, s, step.w);
    assert SlotFits(world, s, slot) by {
      assert slot in s.slots;
    }
    hide Apply, Inv;
    SumUpdate(s.slots, step.w, s2.slots[step.w], SlotWeight);
    if slot.msg.retries < MAX_RETRIES {
      SumLast(s.ready, Msg(slot.msg.event, slot.msg.retries + 1), MsgWeight);
    }
  }

  lemma {:induction false} WorkSpends(world: World, s: State, step: Step)
    requires Inv(world, s) && Can(world, s, step) && WorkerStep(step) && !step.Take? && !step.Fail?
    ensures Measure(Apply(world, s, step)) < Measure(s)
  {
    var s2 := Apply(world, s, step);
    var before, after := s.slots[step.w], s2.slots[step.w];
    assert SlotFits(world, s, before) by {
      assert before in s.slots;
    }
    SlotSpends(world, s, step);
    assert s2.ready == s.ready && s2.slots == s.slots[step.w := after];
    SumUpdate(s.slots, step.w, after, SlotWeight);
  }

  lemma {:induction false} SlotSpends(world: World, s: State, step: Step)
    requires Can(world, s, step) && WorkerStep(step) && !step.Take? && !step.Fail?
    requires SlotFits(world, s, s.slots[step.w])
    ensures |Apply(world, s, step).slots| == |s.slots|
    ensures SlotWeight(Apply(world, s, step).slots[step.w]) < SlotWeight(s.slots[step.w])
  {
  }

  lemma {:induction false} CrashRefills(world: World, s: State, step: Step)
    requires Inv(world, s) && Can(world, s, step) && step.WorkerCrash?
    ensures Measure(Apply(world, s, step)) <= Measure(s) + MESSAGE
  {
    var slot := s.slots[step.w];
    assert SlotFits(world, s, slot) by {
      assert slot in s.slots;
    }
    SumLast(s.ready, slot.msg, MsgWeight);
    SumUpdate(s.slots, step.w, Idle, SlotWeight);
  }

  lemma {:induction false} RefillBounded(world: World, s: State, step: Step)
    requires Inv(world, s) && Can(world, s, step) && !WorkerStep(step) && !step.WorkerCrash?
    ensures Measure(Apply(world, s, step)) <= Measure(s) + MESSAGE * One(Refills(step))
  {
    var s2 := Apply(world, s, step);
    assert s2.slots == s.slots;
    if s2.ready != s.ready {
      var m := s2.ready[|s.ready|];
      assert s2.ready == s.ready + [m] && Refills(step);
      SumLast(s.ready, m, MsgWeight);
    }
  }

  lemma {:induction false} StepMeasure(world: World, s: State, step: Step)
    requires Inv(world, s) && Can(world, s, step)
    ensures Measure(Apply(world, s, step)) + One(WorkerStep(step)) <= Measure(s) + MESSAGE * One(Refills(step))
  {
    hide Apply, Inv, Measure;
    if step.Take? {
      TakeSpends(world, s, step);
    } else if step.Fail? {
      RetrySpends(world, s, step);
    } else if WorkerStep(step) {
      WorkSpends(world, s, step);
    } else if step.WorkerCrash? {
      CrashRefills(world, s, step);
    } else {
      RefillBounded(world, s, step);
    }
  }

  lemma {:induction false} NextMeasure(world: World, states: seq<State>, steps: seq<Step>, i: nat)
    requires Trace(world, states, steps) && i < |steps| && Inv(world, states[i])
    ensures Measure(states[i + 1]) + One(WorkerStep(steps[i])) <= Measure(states[i]) + MESSAGE * One(Refills(steps[i]))
  {
    assert Next(world, states, steps, i);
    StepMeasure(world, states[i], steps[i]);
  }

  lemma {:induction false} WorkBoundedTo(world: World, states: seq<State>, steps: seq<Step>, n: nat)
    requires Trace(world, states, steps) && n <= |steps| && Inv(world, states[0])
    ensures Measure(states[n]) + Works(steps, n) <= Measure(states[0]) + MESSAGE * RefillsIn(steps, n)
  {
    hide Inv, Next, Measure;
    if n > 0 {
      WorkBoundedTo(world, states, steps, n - 1);
      TraceKeepsInv(world, states, steps, n - 1);
      NextMeasure(world, states, steps, n - 1);
    }
  }

  /** In any run at all, the worker steps number at most the measure the run
      starts with plus a fixed allowance for each message put back or added. */
  lemma {:induction false} WorkBounded(world: World, s1: State, steps: seq<Step>, s2: State)
    requires Inv(world, s1) && Run(world, s1, steps, s2)
    ensures Measure(s2) + Works(steps, |steps|) <= Measure(s1) + MESSAGE * RefillsIn(steps, |steps|)
  {
    var states :| Along(world, states, steps, s1, s2);
    WorkBoundedTo(world, states, steps, |steps|);
  }

  /** So a worker run with no refill ends, and within the measure. */
  lemma {:induction false} DrainTerminates(world: World, s1: State, steps: seq<Step>, s2: State)
    requires Inv(world, s1) && Run(world, s1, steps, s2)
    requires forall i :: 0 <= i < |steps| ==> WorkerStep(steps[i])
    ensures |steps| <= Measure(s1)
  {
    WorkBounded(world, s1, steps, s2);
    RunKeepsInv(world, s1, steps, s2);
    MeasureNonNegative(world, s2);
    OnlyWork(steps, |steps|);
  }

  lemma {:induction false} OnlyWork(steps: seq<Step>, n: nat)
    requires n <= |steps| && forall i :: 0 <= i < |steps| ==> WorkerStep(steps[i])
    ensures Works(steps, n) == n && RefillsIn(steps, n) == 0
  {
    if n > 0 {
      OnlyWork(steps, n - 1);
    }
  }

  /** A worker step in which the fee, the database and every status write come through. */
  predicate FaultFree(step: Step) {
    match step
    case Take(_, _) => true
    case Begin(_, ok) => ok
    case Post(_, fault) => fault.Fine?
    case MarkDone(_, write) => write.Wrote?
    case Fail(_) => true
    case DeadLetter(_, write) => write.Wrote?
    case Ack(_) => true
    case _ => false
  }

  predicate Drained(s: State) {
    s.ready == [] && forall slot :: slot in s.slots ==> slot.Idle?
  }

  /** And it can only end drained: while a message is queued or held, some worker
      step can be taken, and one without a fault at that. */
  lemma {:induction false} WorkPossible(world: World, s: State) returns (step: Step)
    requires Inv(world, s) && s.slots != [] && !Drained(s)
    ensures FaultFree(step) && WorkerStep(step) && Can(world, s, step)
  {
    if w :| 0 <= w < |s.slots| && s.slots[w].Busy? {
      assert SlotFits(world, s, s.slots[w]) by {
        assert s.slots[w] in s.slots;
      }
      step :=
        match s.slots[w].pc
        case Starting => Begin(w, true)
        case Posting(_) => Post(w, Fine)
        case MarkingProcessed | MarkingNoMoney => MarkDone(w, Wrote)
        case Failing => Fail(w)
        case DeadLettering => DeadLetter(w, Wrote)
        case Acking => Ack(w);
    } else {
      step := Take(0, 0);
    }
  }

  /** A row a worker is at work on, or done with. */
  ghost predicate InHand(s: State, e: Event) {
    HasRow(s, e) && (Live(s, e) || Terminal(s.rows[e.id].status))
  }

  /** Without a fault no row in hand is lost from it, over one step ... */
  lemma {:induction false} StaysInHand(world: World, s: State, step: Step, e: Event)
    requires Can(world, s, step) && FaultFree(step) && InHand(s, e)
    ensures InHand(Apply(world, s, step), e)
  {
    hide Apply, Can, Live;
    StepAdvances(world, s, step);
    if Live(s, e) {
      LiveUntilSettled(world, s, step, e);
    }
  }

  /** An event the worker can do: it moves no money, or a sum the database commits. */
  ghost predicate Doable(world: World, e: Event) {
    NoMoney(world.fees, e) || (Moves(world.fees, e) && Commits(MoveOf(world.fees, e).entries))
  }

  predicate GivingUp(slot: Slot, e: Event) {
    slot.Busy? && slot.msg.event == e && (slot.pc.Failing? || slot.pc.DeadLettering?)
  }

  /** No worker is giving up on the event, and none has. */
  predicate OnTrack(s: State, e: Event) {
    HasRow(s, e) && s.rows[e.id].status != Failed && forall slot :: slot in s.slots ==> !GivingUp(slot, e)
  }

  lemma {:induction false} PostGoesOn(world: World, s: State, w: nat, e: Event)
    requires Can(world, s, Post(w, Fine)) && s.slots[w].msg.event == e && Doable(world, e)
    ensures var after := Apply(world, s, Post(w, Fine)).slots; w < |after| && after[w].Busy? && after[w].pc.MarkingProcessed?
  {
    hide Conflict;
    assert Commits(MoveOf(world.fees, e).entries);
  }

  lemma {:induction false} BeginGoesOn(world: World, s: State, w: nat, e: Event)
    requires Can(world, s, Begin(w, true)) && s.slots[w].msg.event == e && Doable(world, e)
    ensures var after := Apply(world, s, Begin(w, true)).slots; w < |after| && after[w].Busy? && !after[w].pc.Failing? && !after[w].pc.DeadLettering?
  {
    hide Build;
  }

  lemma {:induction false} RestGoesOn(world: World, s: State, step: Step, w: nat, e: Event)
    requires Can(world, s, step) && FaultFree(step) && SlotOf(step) == Some(w) && w < |s.slots|
    requires !GivingUp(s.slots[w], e)
    requires (step.Begin? || step.Post?) ==> s.slots[w].msg.event != e
    ensures w < |Apply(world, s, step).slots| && !GivingUp(Apply(world, s, step).slots[w], e)
  {
    hide Marked, Attempt, FirstPc, PcAfter, Resolved, Moves, MoveOf;
  }

  /** Without a fault nobody starts to give up on an event that can be done. */
  lemma {:induction false} NobodyGivesUp(world: World, s: State, step: Step, w: nat, e: Event)
    requires Can(world, s, step) && FaultFree(step) && Doable(world, e)
    requires SlotOf(step) == Some(w) && w < |s.slots| && !GivingUp(s.slots[w], e)
    ensures w < |Apply(world, s, step).slots| && !GivingUp(Apply(world, s, step).slots[w], e)
  {
    hide Apply, Doable;
    if step.Post? && s.slots[w].msg.event == e {
      PostGoesOn(world, s, w, e);
    } else if step.Begin? && s.slots[w].msg.event == e {
      BeginGoesOn(world, s, w, e);
    } else {
      RestGoesOn(world, s, step, w, e);
    }
  }

  lemma {:induction false} NobodyFailsRow(world: World, s: State, step: Step, e: Event)
    requires Can(world, s, step) && FaultFree(step) && Inv(world, s) && OnTrack(s, e)
    ensures HasRow(Apply(world, s, step), e) && Apply(world, s, step).rows[e.id].status != Failed
  {
    hide Attempt, RowsInv, LedgerInv, StatusInv, AnswerInv;
    if step.DeadLetter? {
      var slot := s.slots[step.w];
      assert slot in s.slots;
      assert SlotFits(world, s, slot) && !GivingUp(slot, e);
    } else {
      hide Inv;
    }
  }

  /** The slot a fault-free step works on. */
  lemma {:induction false} WorksOn(world: World, s: State, step: Step) returns (w: nat)
    requires Can(world, s, step) && FaultFree(step)
    ensures SlotOf(step) == Some(w) && w < |s.slots|
  {
    assert WorkerStep(step);
    w := step.w;
  }

  lemma {:induction false} StaysOnTrack(world: World, s: State, step: Step, e: Event)
    requires Can(world, s, step) && FaultFree(step) && Inv(world, s) && Doable(world, e) && OnTrack(s, e)
    ensures OnTrack(Apply(world, s, step), e)
  {
    hide Apply, Can, Inv, Doable, GivingUp;
    var s2 := Apply(world, s, step);
    var own := WorksOn(world, s, step);
    SlotsChange(world, s, step);
    NobodyFailsRow(world, s, step, e);
    assert !GivingUp(s.slots[own], e) by {
      assert s.slots[own] in s.slots;
    }
    NobodyGivesUp(world, s, step, own, e);
    forall slot | slot in s2.slots ensures !GivingUp(slot, e) {
      var w :| 0 <= w < |s2.slots| && s2.slots[w] == slot;
      assert !GivingUp(s.slots[w], e) by {
        assert s.slots[w] in s.slots;
      }
      OtherSlots(s.slots, slot, w, e);
    }
  }

  lemma {:induction false} OtherSlots(slots: seq<Slot>, slot: Slot, w: nat, e: Event)
    requires w < |slots| && !GivingUp(slots[w], e)
    ensures slot == slots[w] || slot.Idle? ==> !GivingUp(slot, e)
  {
  }

  /** What a stretch of fault-free work keeps of every event. */
  ghost predicate Progress(world: World, s: State, s2: State) {
    && (forall e :: InHand(s, e) ==> InHand(s2, e))
    && (forall e :: Doable(world, e) && OnTrack(s, e) ==> OnTrack(s2, e))
  }

  lemma {:induction false} StepProgress(world: World, s: State, step: Step)
    requires Can(world, s, step) && FaultFree(step) && Inv(world, s)
    ensures Progress(world, s, Apply(world, s, step))
  {
    hide Apply, Can, Inv, InHand, OnTrack, Doable;
    forall e | InHand(s, e) ensures InHand(Apply(world, s, step), e) {
      StaysInHand(world, s, step, e);
    }
    forall e | Doable(world, e) && OnTrack(s, e) ensures OnTrack(Apply(world, s, step), e) {
      StaysOnTrack(world, s, step, e);
    }
  }

  lemma {:induction false} ProgressOn(world: World, s: State, s1: State, s2: State)
    requires Progress(world, s, s1) && Progress(world, s1, s2)
    ensures Progress(world, s, s2)
  {
    hide InHand, OnTrack, Doable;
  }

  /** ... and over a run that drains whatever there is, within the measure. */
  lemma {:induction false} DrainsFrom(world: World, s: State) returns (steps: seq<Step>, s2: State)
    requires Inv(world, s) && s.slots != []
    ensures Run(world, s, steps, s2) && Drained(s2)
    ensures (forall i :: 0 <= i < |steps| ==> FaultFree(steps[i])) && |steps| <= Measure(s)
    ensures Progress(world, s, s2)
    decreases Measure(s)
  {
    hide Apply, Can, Inv, Measure, Drained, Progress, Refills;
    MeasureNonNegative(world, s);
    if Drained(s) {
      steps, s2 := [], s;
      NoSteps(world, s);
    } else {
      var step := WorkPossible(world, s);
      var s1 := Apply(world, s, step);
      WorkerStepSpends(world, s, step);
      StepKeepsInv(world, s, step);
      SlotsChange(world, s, step);
      StepProgress(world, s, step);
      var rest;
      rest, s2 := DrainsFrom(world, s1);
      steps := [step] + rest;
      OneStep(world, s, step);
      RunConcat(world, s, [step], s1, rest, s2);
      ProgressOn(world, s, s1, s2);
    }
  }

  lemma {:induction false} WorkerStepSpends(world: World, s: State, step: Step)
    requires Inv(world, s) && Can(world, s, step) && WorkerStep(step)
    ensures Measure(Apply(world, s, step)) < Measure(s)
  {
    hide Apply, Can, Inv, Measure;
    StepMeasure(world, s, step);
  }

  lemma {:induction false} NoSteps(world: World, s: State)
    ensures Run(world, s, [], s) && Progress(world, s, s)
  {
    assert Along(world, [s], [], s, s);
  }

  /** What became of a row that was owed a worker: it is processed, and its movement is
      in the ledger; or ignored, and moves no money; or failed. */
  ghost predicate Judged(world: World, s: State, e: Event) {
    && HasRow(s, e)
    && match s.rows[e.id].status
       case Processed => Covered(s.ledger, e)
       case NoMoneyMoved => NoMoney(world.fees, e)
       case Failed => true
       case _ => false
  }

  /** Recovery: from any reachable state at all, whatever went wrong before it, some run
      of worker steps without a fault drains the queue and every worker, within the
      measure, and leaves each event that had a message anywhere with its verdict; and
      that is not 'failed' unless the event cannot be done, or had failed or was being
      given up already. */
  lemma {:induction false} DrainRecovers(world: World, s: State) returns (steps: seq<Step>, s2: State)
    requires Reachable(world, s) && s.slots != []
    ensures Run(world, s, steps, s2) && Drained(s2)
    ensures (forall i :: 0 <= i < |steps| ==> FaultFree(steps[i])) && |steps| <= Measure(s)
    ensures forall e :: Live(s, e) ==> Judged(world, s2, e)
    ensures forall e :: Live(s, e) && Doable(world, e) && OnTrack(s, e) ==>
      e.id in s2.rows && s2.rows[e.id].status == if NoMoney(world.fees, e) then NoMoneyMoved else Processed
  {
    hide Moves, MoveOf, Doable, Inv, Along, Measure;
    ReachableInv(world, s);
    steps, s2 := DrainsFrom(world, s);
    RunKeepsInv(world, s, steps, s2);
    forall e | Live(s, e) ensures Judged(world, s2, e) {
      LiveHasRow(world, s, e);
      assert InHand(s, e) && InHand(s2, e);
      DrainedIsDone(world, s2, e);
    }
    forall e | Live(s, e) && Doable(world, e) && OnTrack(s, e)
      ensures e.id in s2.rows && s2.rows[e.id].status == if NoMoney(world.fees, e) then NoMoneyMoved else Processed
    {
      assert Judged(world, s2, e) && OnTrack(s2, e);
      assert Judged(world, s2, e) && OnTrack(s2, e);
      if s2.rows[e.id].status == Processed {
        ProcessedMoves(world, s2, e);
      }
    }
  }

  /** A processed row moves money. */
  lemma {:induction false} ProcessedMoves(world: World, s: State, e: Event)
    requires Inv(world, s) && HasRow(s, e) && s.rows[e.id].status == Processed
    ensures !NoMoney(world.fees, e)
  {
  }

  lemma {:induction false} LiveHasRow(world: World, s: State, e: Event)
    requires Inv(world, s) && Live(s, e)
    ensures HasRow(s, e)
  {
    if slot :| slot in s.slots && Holds(slot, e) {
      assert SlotFits(world, s, slot);
    }
  }

  lemma {:induction false} DrainedIsDone(world: World, s: State, e: Event)
    requires Inv(world, s) && Drained(s) && InHand(s, e)
    ensures Judged(world, s, e)
  {
    assert !Live(s, e);
    assert StatusFits(world, s, e.id);
  }
}
