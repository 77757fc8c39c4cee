/** Fault plans and the pipeline together: whatever the interleaving, a scenario
    that runs a plan's deliveries to quiescence is judged without a break. */
module PlanSound {
  import opened Wrappers
  import opened Sums
  import opened Ledger
  import opened Mapping
  import opened Fixtures
  import opened Signature
  import opened Gate
  import opened Protocol
  import opened Invariant
  import opened Safety
  import opened Convergence
  import opened Faults
  import opened Deliveries
  import opened PlanEffects
  import Recon
  import ReconExpected
  import HappyPath
  import V = Verdict

  // ------------------------------------------------ what the runner sees --

  // The proxy's record of one delivery: the status, if any came, and the error text.
  datatype Reply = Reply(status: Option<int>, body: string)

  /** A delivery the gate refuses is answered 400 with the gate's error; what a
      delivery that passes is answered is the pipeline's affair. */
  ghost predicate Answers(site: Site, sent: seq<Delivery>, at: seq<int>, replies: seq<Reply>)
    requires |at| == |sent|
  {
    && |replies| == |sent|
    && forall k :: 0 <= k < |sent| ==>
      match AtGate(site, sent[k], at[k])
      case BadRequest(error) => replies[k] == Reply(Some(400), error)
      case Passed(_) => true
  }

  function CandidateIds(plan: FaultPlan, fixtures: seq<Fixture>): set<string> {
    (set i | 0 <= i < |fixtures| :: fixtures[i].event.id) + set k | 0 <= k < |plan.deliveries| :: plan.deliveries[k].eventId
  }

  /** The event ids of the transactions the candidates produced, one per transaction. */
  function PostedRows(ledger: seq<Txn>, candidates: set<string>): seq<string> {
    if ledger == [] then []
    else
      var t := ledger[|ledger| - 1];
      PostedRows(ledger[..|ledger| - 1], candidates) +
      if t.eventId.Some? && t.eventId.value in candidates then [t.eventId.value] else []
  }

  /** Non-zero balance changes. */
  function BalanceDiff(before: Balances, after: Balances): Balances {
    NonZero(map a | a in before.Keys + after.Keys :: Get(after, a) - Get(before, a))
  }

  function Accepting(deliveries: seq<Delivery>, replies: seq<Reply>): seq<string>
    requires |deliveries| == |replies|
  {
    if deliveries == [] then []
    else
      var n := |deliveries| - 1;
      var d, r := deliveries[n], replies[n];
      Accepting(deliveries[..n], replies[..n]) +
      if d.expectRejected && r.status.Some? && 200 <= r.status.value < 300 then [d.eventId] else []
  }

  function MisRefused(deliveries: seq<Delivery>, replies: seq<Reply>): seq<string>
    requires |deliveries| == |replies|
  {
    if deliveries == [] then []
    else
      var n := |deliveries| - 1;
      var d, r := deliveries[n], replies[n];
      MisRefused(deliveries[..n], replies[..n]) +
      if d.expectReason.Some? && r.status.Some? && 400 <= r.status.value < 500 && d.expectReason.value != r.body
      then [d.eventId] else []
  }

  function ExpectedOf(fixtures: seq<Fixture>): (r: seq<ReconExpected.Expected>)
    ensures |r| == |fixtures|
    ensures forall i :: 0 <= i < |r| ==> r[i] == ReconExpected.Expected(fixtures[i].event.id, fixtures[i].expectedDelta)
  {
    seq(|fixtures|, (i: int) requires 0 <= i < |fixtures| =>
      ReconExpected.Expected(fixtures[i].event.id, fixtures[i].expectedDelta))
  }

  /** The reconciler's report, as far as the runner reads it. */
  ghost predicate ReportsMissing(ledger: seq<Txn>, fixtures: seq<Fixture>, candidates: set<string>) {
    exists b: ReconExpected.Break ::
      ReconExpected.Diff(b, Recon.Summaries(ledger), ExpectedOf(fixtures)) && b.MissingInLedger? && b.eventId in candidates
  }

  /** The broker is empty and no row of these events is still to be settled. */
  ghost predicate Quiescent(s: State, fixtures: seq<Fixture>) {
    && s.ready == []
    && forall i :: 0 <= i < |fixtures| && fixtures[i].event.id in s.rows ==> Terminal(s.rows[fixtures[i].event.id].status)
  }

  /** run_scenario's Observation, from the states before and after. */
  ghost function Observe(
      plan: FaultPlan, fixtures: seq<Fixture>, replies: seq<Reply>, s0: State, s1: State, responsive: Option<bool>): V.Observation
    requires |plan.deliveries| <= |replies|
  {
    var n := |plan.deliveries|;
    var rows := PostedRows(s1.ledger, CandidateIds(plan, fixtures));
    V.Observation(
      BalanceDiff(AllBalances(AllEntries(s0.ledger)), AllBalances(AllEntries(s1.ledger))),
      InvariantCheck(AllBalances(AllEntries(s1.ledger))).Ok(),
      (set i | 0 <= i < |rows| :: rows[i]), |rows|,
      Quiescent(s1, fixtures),
      Accepting(plan.deliveries, replies[..n]), MisRefused(plan.deliveries, replies[..n]),
      plan.expectation.shouldReportBreak && ReportsMissing(s1.ledger, fixtures, CandidateIds(plan, fixtures)),
      responsive)
  }

  // ----------------------------------------------- what is observed --

  /** A delivery that should have been refused is reported exactly if it was answered
      with a success. */
  lemma {:induction false} AcceptingIs(deliveries: seq<Delivery>, replies: seq<Reply>, id: string)
    requires |deliveries| == |replies|
    ensures id in Accepting(deliveries, replies) <==> exists k ::
      (0 <= k < |deliveries| && deliveries[k].eventId == id && deliveries[k].expectRejected
       && replies[k].status.Some? && 200 <= replies[k].status.value <= 299)
  {
    if deliveries != [] {
      AcceptingIs(deliveries[..|deliveries| - 1], replies[..|deliveries| - 1], id);
    }
  }

  /** And one that was refused, but not for the reason the plan names. */
  lemma {:induction false} MisRefusedIs(deliveries: seq<Delivery>, replies: seq<Reply>, id: string)
    requires |deliveries| == |replies|
    ensures id in MisRefused(deliveries, replies) <==> exists k ::
      (0 <= k < |deliveries| && deliveries[k].eventId == id
       && deliveries[k].expectReason.Some? && deliveries[k].expectReason.value != replies[k].body
       && replies[k].status.Some? && 400 <= replies[k].status.value <= 499)
  {
    if deliveries != [] {
      MisRefusedIs(deliveries[..|deliveries| - 1], replies[..|deliveries| - 1], id);
    }
  }

  predicate Produced(t: Txn, candidates: set<string>) {
    t.eventId.Some? && t.eventId.value in candidates
  }

  ghost predicate PostedFor(ledger: seq<Txn>, candidates: set<string>, id: string) {
    exists t :: t in ledger && Produced(t, candidates) && t.eventId == Some(id)
  }

  function OnePerProduced(candidates: set<string>): Txn -> int {
    (t: Txn) => if Produced(t, candidates) then 1 else 0
  }

  /** As many rows as transactions of candidates, each under its event's id. */
  lemma {:induction false} PostedRowsAre(ledger: seq<Txn>, candidates: set<string>, id: string)
    ensures |PostedRows(ledger, candidates)| == Sum(ledger, OnePerProduced(candidates))
    ensures id in PostedRows(ledger, candidates) <==> PostedFor(ledger, candidates, id)
  {
    if ledger != [] {
      var before, last := ledger[..|ledger| - 1], ledger[|ledger| - 1];
      assert ledger == before + [last];
      PostedRowsAre(before, candidates, id);
    }
  }

  /** The queue or the event log is stuck. */
  lemma {:induction false} StuckShows(s: State, fixtures: seq<Fixture>)
    ensures !Quiescent(s, fixtures) <==> s.ready != [] || exists i ::
      (0 <= i < |fixtures| && fixtures[i].event.id in s.rows && s.rows[fixtures[i].event.id].status in {Received, Queued})
  {
  }

  lemma {:induction false} CandidatesAre(plan: FaultPlan, fixtures: seq<Fixture>, id: string)
    ensures id in CandidateIds(plan, fixtures) <==>
      || (exists i :: 0 <= i < |fixtures| && fixtures[i].event.id == id)
      || exists k :: 0 <= k < |plan.deliveries| && plan.deliveries[k].eventId == id
  {
  }

  /** What an observation counts as posted: a transaction for each, and its event's id. */
  lemma {:induction false} ObservedPosted(
      plan: FaultPlan, fixtures: seq<Fixture>, replies: seq<Reply>, s0: State, s1: State, responsive: Option<bool>, id: string)
    requires |plan.deliveries| <= |replies|
    ensures var obs, candidates := Observe(plan, fixtures, replies, s0, s1, responsive), CandidateIds(plan, fixtures);
      && obs.transactions == Sum(s1.ledger, OnePerProduced(candidates))
      && (id in obs.posted <==> PostedFor(s1.ledger, candidates, id))
  {
    hide PostedRows, CandidateIds, Accepting, MisRefused, Quiescent, ReportsMissing, BalanceDiff, InvariantCheck, PostedFor, Sum, OnePerProduced;
    PostedRowsAre(s1.ledger, CandidateIds(plan, fixtures), id);
    var rows := PostedRows(s1.ledger, CandidateIds(plan, fixtures));
    assert id in rows <==> id in (set i | 0 <= i < |rows| :: rows[i]);
  }

  /** And what it says of the balances, the queue and the endpoint. */
  lemma {:induction false} ObservedRest(
      plan: FaultPlan, fixtures: seq<Fixture>, replies: seq<Reply>, s0: State, s1: State, responsive: Option<bool>)
    requires |plan.deliveries| <= |replies| && s0.ledger <= s1.ledger
    ensures var obs := Observe(plan, fixtures, replies, s0, s1, responsive);
      && (forall a :: Get(obs.ledgerDiff, a) == if Ledger.Listed(a) then NetChange(a, s1.ledger[|s0.ledger|..]) else 0)
      && (obs.invariantAfter <==> Difference(AllEntries(s1.ledger)) == 0)
      && (obs.quiescent <==> Quiescent(s1, fixtures)) && obs.responsive == responsive
      && obs.acceptedRejected == Accepting(plan.deliveries, replies[..|plan.deliveries|])
      && obs.wrongReason == MisRefused(plan.deliveries, replies[..|plan.deliveries|])
      && (obs.reconReported <==>
            plan.expectation.shouldReportBreak && ReportsMissing(s1.ledger, fixtures, CandidateIds(plan, fixtures)))
  {
    hide PostedRows, CandidateIds, Accepting, MisRefused, Quiescent, ReportsMissing, BalanceDiff, InvariantCheck;
    forall a {
      DiffIsNet(s0.ledger, s1.ledger, a);
    }
  }

  // ---------------------------------------------------------- a scenario --

  /** No earlier row stands for these events or for the twin. */
  ghost predicate Unseen(s0: State, fixtures: seq<Fixture>) {
    && (forall i :: 0 <= i < |fixtures| ==> !Collides(s0.rows, fixtures[i].event))
    && (fixtures != [] ==> !Collides(s0.rows, TwinOf(fixtures[0].event)))
  }

  /** One run of a plan: from a quiet state, any interleaving of ingest handlers and
      workers, crashes included, on exactly the deliveries that pass the gate, to a
      quiet state in which each new row carries a worker's verdict and none failed. */
  ghost predicate Scenario(
      world: World, site: Site, plan: FaultPlan, at: seq<int>, s0: State, steps: seq<Step>, s1: State)
  {
    && Inv(world, s0) && Quiet(s0) && Run(world, s0, steps, s1) && Quiet(s1)
    && (forall i :: 0 <= i < |steps| ==> !steps[i].Redrive? && !steps[i].Approve?)
    && |at| == |AllSent(plan)|
    && s0.received <= s1.received && Since(s0, s1) == Passing(site, AllSent(plan), at)
    && SettledRows(s0, s1)
  }

  lemma {:induction false} InsertedIsReceived(world: World, states: seq<State>, steps: seq<Step>, i: nat, n: nat)
    requires Trace(world, states, steps) && i < n <= |steps| && steps[i].Insert?
    ensures states[0].received <= states[i].received
    ensures states[i].received + [steps[i].e] <= states[n].received
  {
    TraceAdvances(world, states, steps, i);
    if n == i + 1 {
      assert Next(world, states, steps, i);
    } else {
      InsertedIsReceived(world, states, steps, i, n - 1);
      assert Next(world, states, steps, n - 1);
      StepAdvances(world, states[n - 1], steps[n - 1]);
    }
  }

  /** A scenario's steps touch only its own events, so settling applies to them. */
  lemma {:induction false} ScenarioIsOurs(world: World, s0: State, steps: seq<Step>, s1: State)
    requires Run(world, s0, steps, s1) && s0.received <= s1.received
    requires forall e :: e in Since(s0, s1) ==> !Collides(s0.rows, e)
    requires forall i :: 0 <= i < |steps| ==> !steps[i].Redrive?
    ensures forall i :: 0 <= i < |steps| ==> Ours(s0, steps[i])
  {
    var states: seq<State> :| Along(world, states, steps, s0, s1);
    forall i | 0 <= i < |steps| ensures Ours(s0, steps[i]) {
      if steps[i].Insert? {
        InsertedIsReceived(world, states, steps, i, |steps|);
        var k := |states[i].received|;
        assert s1.received[k] == steps[i].e;
        assert Since(s0, s1)[k - |s0.received|] == steps[i].e;
      }
    }
  }

  lemma {:induction false} EventsOnly(world: World, states: seq<State>, steps: seq<Step>, n: nat)
    requires Trace(world, states, steps) && Inv(world, states[0]) && n <= |steps|
    requires forall i :: 0 <= i < |steps| ==> !steps[i].Approve?
    ensures states[0].ledger <= states[n].ledger
    ensures forall k :: |states[0].ledger| <= k < |states[n].ledger| ==> states[n].ledger[k].eventId.Some?
  {
    hide Inv;
    if n > 0 {
      EventsOnly(world, states, steps, n - 1);
      TraceKeepsInv(world, states, steps, n - 1);
      assert Next(world, states, steps, n - 1);
      var step, s := steps[n - 1], states[n - 1];
      LedgerChange(world, s, step);
      if step.Post? {
        MoveNamesEvent(world.fees, s.slots[step.w].msg.event);
      }
    }
  }

  lemma {:induction false} NoRepairs(txns: seq<Txn>)
    requires forall k :: 0 <= k < |txns| ==> txns[k].eventId.Some?
    ensures EventTxns(txns) == txns && Repairs(txns) == []
  {
    if txns != [] {
      NoRepairs(txns[..|txns| - 1]);
      assert txns == txns[..|txns| - 1] + [txns[|txns| - 1]];
    }
  }

  /** Every transaction a scenario appends is an event's. */
  lemma {:induction false} AppendsEventsOnly(world: World, s0: State, steps: seq<Step>, s1: State)
    requires Inv(world, s0) && Run(world, s0, steps, s1)
    requires forall i :: 0 <= i < |steps| ==> !steps[i].Approve?
    ensures s0.ledger <= s1.ledger
    ensures EventTxns(Appended(s0, s1)) == Appended(s0, s1) && Repairs(Appended(s0, s1)) == []
  {
    var states: seq<State> :| Along(world, states, steps, s0, s1);
    EventsOnly(world, states, steps, |steps|);
    NoRepairs(Appended(s0, s1));
  }

  // ------------------------------------- what a scenario does to the ledger --

  lemma {:induction false} CarriedIsKnown(fault: Fault, fixtures: seq<Fixture>, params: Params, e: Event)
    requires e in Carried(fault, fixtures, params)
    ensures fixtures != []
    ensures Known(fixtures, e)
  {
    hide Backwards, TwinOf;
    var carried := Carried(fault, fixtures, params);
    var k :| 0 <= k < |carried| && carried[k] == e;
    if fault == NoFault {
      assert e == fixtures[k].event;
    } else if fault == Reorder {
      assert e == fixtures[|fixtures| - 1 - k].event;
    }
  }

  lemma {:induction false} CarriedIsUnseen(s0: State, fault: Fault, fixtures: seq<Fixture>, params: Params)
    requires Unseen(s0, fixtures)
    ensures forall e :: e in Carried(fault, fixtures, params) ==> !Collides(s0.rows, e)
  {
    forall e | e in Carried(fault, fixtures, params) ensures !Collides(s0.rows, e) {
      CarriedIsKnown(fault, fixtures, params, e);
    }
  }

  /** What the scenario appends: one transaction per intended money fixture. */
  ghost predicate Records(world: World, s0: State, s1: State, intended: seq<Fixture>) {
    && s0.ledger <= s1.ledger
    && SameMovements(world.fees, Appended(s0, s1), EventsOf(MoneyOnes(intended)))
    && Dealt(intended)
    && forall a :: NetChange(a, Appended(s0, s1)) ==
         Sum(EventsOf(MoneyOnes(intended)), (e: Event) => Effect(world.fees, a, e))
  }

  lemma {:induction false} IntendedIsDealt(world: World, s0: State, s1: State, intended: seq<Fixture>)
    requires Inv(world, s1) && s0.ledger <= s1.ledger && Apart(intended)
    requires SameMovements(world.fees, Appended(s0, s1), EventsOf(MoneyOnes(intended)))
    ensures Dealt(intended)
  {
    forall fx | fx in intended && MovesMoney(fx) ensures fx.expectedDelta != map[] {
      var money := MoneyOnes(intended);
      assert fx in money;
      var i :| 0 <= i < |money| && money[i] == fx;
      assert EventsOf(money)[i] == fx.event && fx.event in EventsOf(money);
      var t :| t in Appended(s0, s1) && Moves(world.fees, fx.event) && t == MoveOf(world.fees, fx.event);
      assert t in s1.ledger && TxnFits(world, s1, t);
      var j :| 0 <= j < |intended| && intended[j] == fx;
      CommittedHasDelta(world.fees, fx);
    }
  }

  /** What a scenario on these events settles: one transaction each. */
  lemma {:induction false} ScenarioSettles(world: World, s0: State, steps: seq<Step>, s1: State, carried: seq<Event>)
    requires Inv(world, s0) && Quiet(s0) && Run(world, s0, steps, s1) && SettledRows(s0, s1)
    requires forall i :: 0 <= i < |steps| ==> !steps[i].Redrive? && !steps[i].Approve?
    requires s0.received <= s1.received && Since(s0, s1) == carried
    requires forall e :: e in carried ==> !Collides(s0.rows, e)
    ensures s0.ledger <= s1.ledger
    ensures SameMovements(world.fees, Appended(s0, s1), Money(world.fees, Firsts(carried)))
    ensures forall a :: NetChange(a, Appended(s0, s1)) == Brought(world, carried, a)
  {
    ScenarioIsOurs(world, s0, steps, s1);
    Settles(world, s0, steps, s1);
    AppendsEventsOnly(world, s0, steps, s1);
    forall a ensures NetChange(a, Appended(s0, s1)) == Brought(world, carried, a) {
      assert NetChange(a, Repairs(Appended(s0, s1))) == 0;
    }
  }

  function Brought(world: World, carried: seq<Event>, a: Account): int {
    Sum(Money(world.fees, Firsts(carried)), (e: Event) => Effect(world.fees, a, e))
  }

  lemma {:induction false} ScenarioRecords(
      world: World, site: Site, fault: Fault, fixtures: seq<Fixture>, params: Params, ts: int, plan: FaultPlan,
      at: seq<int>, s0: State, steps: seq<Step>, s1: State)
    requires Sane(site, fixtures) && Fits(site, fixtures) && Apart(fixtures) && Unseen(s0, fixtures)
    requires Plan(site.kit, fault, fixtures, params, ts) == Ok(plan)
    requires InTime(AllSent(plan), ts, at) && Scenario(world, site, plan, at, s0, steps, s1)
    ensures Inv(world, s1)
    ensures Records(world, s0, s1, Intended(fault, fixtures, params))
  {
    var intended, carried := Intended(fault, fixtures, params), Carried(fault, fixtures, params);
    RunKeepsInv(world, s0, steps, s1);
    PassingIsCarried(site, fault, fixtures, params, ts, plan, at);
    CarriedIsUnseen(s0, fault, fixtures, params);
    ScenarioSettles(world, s0, steps, s1, carried);
    PlanRefuses(site.kit, fault, fixtures, params, ts, plan);
    CarriedFirsts(fault, fixtures, params);
    IntendedIsApart(fault, fixtures, params);
    MoneyOfFixtures(world.fees, intended);
    IntendedIsDealt(world, s0, s1, intended);
  }

  lemma {:induction false} EffectSum(world: World, money: seq<Fixture>, a: Account)
    requires Ledger.Listed(a) && forall i :: 0 <= i < |money| ==> Made(money[i])
    ensures Sum(EventsOf(money), (e: Event) => Effect(world.fees, a, e)) ==
      Sum(money, (fx: Fixture) => Get(fx.expectedDelta, a))
  {
    if money != [] {
      var n := |money| - 1;
      EffectSum(world, money[..n], a);
      FixtureEffect(world.fees, money[n], a);
      assert EventsOf(money)[..n] == EventsOf(money[..n]);
    }
  }

  lemma {:induction false} NoEffectOffChart(money: seq<Fixture>, a: Account)
    requires !Ledger.Listed(a) && forall i :: 0 <= i < |money| ==> Made(money[i])
    ensures Sum(money, (fx: Fixture) => Get(fx.expectedDelta, a)) == 0
  {
    if money != [] {
      var n := |money| - 1;
      NoEffectOffChart(money[..n], a);
      FixtureMoves(e => 0, money[n]);
    }
  }

  lemma {:induction false} DiffIsNet(l0: seq<Txn>, l1: seq<Txn>, a: Account)
    requires l0 <= l1
    ensures Get(BalanceDiff(AllBalances(AllEntries(l0)), AllBalances(AllEntries(l1))), a) ==
      if Ledger.Listed(a) then NetChange(a, l1[|l0|..]) else 0
  {
    hide Balance, AllEntries;
    BalanceOfLedger(a, l0);
    BalanceOfLedger(a, l1);
    SumConcat(l0, l1[|l0|..], (t: Txn) => Balance(a, t.entries));
    assert l1 == l0 + l1[|l0|..];
  }

  lemma {:induction false} MoneyIsMade(intended: seq<Fixture>)
    requires Apart(intended)
    ensures forall i :: 0 <= i < |MoneyOnes(intended)| ==> Made(MoneyOnes(intended)[i])
  {
    forall i | 0 <= i < |MoneyOnes(intended)| ensures Made(MoneyOnes(intended)[i]) {
      assert MoneyOnes(intended)[i] in MoneyOnes(intended);
      var j :| 0 <= j < |intended| && intended[j] == MoneyOnes(intended)[i];
    }
  }

  lemma {:induction false} DiffAgreesOn(
      world: World, fixtures: seq<Fixture>, intended: seq<Fixture>, s0: State, s1: State, a: Account)
    requires Records(world, s0, s1, intended) && Apart(intended)
    requires Distinct(fixtures, IdOf) && Distinct(intended, IdOf) && forall fx :: fx in intended ==> fx in fixtures
    ensures Get(BalanceDiff(AllBalances(AllEntries(s0.ledger)), AllBalances(AllEntries(s1.ledger))), a)
      == Get(SumDelta(fixtures, Ids(intended)), a)
  {
    var money := MoneyOnes(intended);
    MoneyIsMade(intended);
    DiffIsNet(s0.ledger, s1.ledger, a);
    TotalsAre(fixtures, Ids(intended), a);
    ExpectedIsIntended(fixtures, intended, a);
    if Ledger.Listed(a) {
      EffectSum(world, money, a);
    } else {
      NoEffectOffChart(money, a);
    }
  }

  /** The observed balance changes are the expected ones. */
  lemma {:induction false} DiffAgrees(
      world: World, fixtures: seq<Fixture>, intended: seq<Fixture>, s0: State, s1: State)
    requires Records(world, s0, s1, intended) && Apart(intended)
    requires Distinct(fixtures, IdOf) && Distinct(intended, IdOf) && forall fx :: fx in intended ==> fx in fixtures
    ensures BalanceDiff(AllBalances(AllEntries(s0.ledger)), AllBalances(AllEntries(s1.ledger)))
      == SumDelta(fixtures, Ids(intended))
  {
    var diff := BalanceDiff(AllBalances(AllEntries(s0.ledger)), AllBalances(AllEntries(s1.ledger)));
    forall a ensures Get(diff, a) == Get(SumDelta(fixtures, Ids(intended)), a) {
      DiffAgreesOn(world, fixtures, intended, s0, s1, a);
    }
    ReconExpected.SameDelta(diff, SumDelta(fixtures, Ids(intended)));
  }

  // ------------------------------------------------------- posted rows --

  lemma {:induction false} RowsConcat(xs: seq<Txn>, ys: seq<Txn>, ids: set<string>)
    ensures PostedRows(xs + ys, ids) == PostedRows(xs, ids) + PostedRows(ys, ids)
  {
    if ys == [] {
      assert xs + ys == xs;
    } else {
      assert (xs + ys)[..|xs + ys| - 1] == xs + ys[..|ys| - 1];
      RowsConcat(xs, ys[..|ys| - 1], ids);
    }
  }

  lemma {:induction false} NoRows(txns: seq<Txn>, ids: set<string>)
    requires forall t :: t in txns && t.eventId.Some? ==> t.eventId.value !in ids
    ensures PostedRows(txns, ids) == []
  {
    if txns != [] {
      assert txns[|txns| - 1] in txns;
      NoRows(txns[..|txns| - 1], ids);
    }
  }

  lemma {:induction false} AllRows(txns: seq<Txn>, ids: set<string>)
    requires forall t :: t in txns ==> t.eventId.Some? && t.eventId.value in ids
    ensures |PostedRows(txns, ids)| == |txns|
    ensures forall i :: 0 <= i < |txns| ==> txns[i].eventId == Some(PostedRows(txns, ids)[i])
  {
    if txns != [] {
      assert txns[|txns| - 1] in txns;
      AllRows(txns[..|txns| - 1], ids);
    }
  }

  lemma {:induction false} AppendedHasFixture(world: World, s0: State, s1: State, intended: seq<Fixture>, t: Txn)
    requires Records(world, s0, s1, intended) && t in Appended(s0, s1)
    ensures exists i :: 0 <= i < |MoneyOnes(intended)| && t.eventId == Some(IdOf(MoneyOnes(intended)[i]))
  {
    hide Moves, MoveOf, NetChange, Dealt;
    var money := MoneyOnes(intended);
    var f :| f in EventsOf(money) && Moves(world.fees, f) && t == MoveOf(world.fees, f);
    MoveNamesEvent(world.fees, f);
    var i :| 0 <= i < |money| && EventsOf(money)[i] == f;
  }

  lemma {:induction false} FixtureIsAppended(world: World, s0: State, s1: State, intended: seq<Fixture>, i: nat)
    requires Records(world, s0, s1, intended) && i < |MoneyOnes(intended)|
    ensures exists t :: t in Appended(s0, s1) && t.eventId == Some(IdOf(MoneyOnes(intended)[i]))
  {
    hide Moves, MoveOf, NetChange, Dealt;
    var f := MoneyOnes(intended)[i].event;
    assert EventsOf(MoneyOnes(intended))[i] == f && f in EventsOf(MoneyOnes(intended));
    var t :| t in Appended(s0, s1) && Moves(world.fees, f) && t == MoveOf(world.fees, f);
    MoveNamesEvent(world.fees, f);
  }

  lemma {:induction false} AppendedIds(world: World, s0: State, s1: State, intended: seq<Fixture>, id: string)
    requires Records(world, s0, s1, intended) && Apart(intended)
    ensures (exists t :: t in Appended(s0, s1) && t.eventId == Some(id)) <==> id in Ids(intended)
  {
    var money := MoneyOnes(intended);
    MoneyIds(intended, id);
    hide Records, Apart, Ids, MoneyOnes;
    if t :| t in Appended(s0, s1) && t.eventId == Some(id) {
      AppendedHasFixture(world, s0, s1, intended, t);
    }
    if i :| 0 <= i < |money| && IdOf(money[i]) == id {
      FixtureIsAppended(world, s0, s1, intended, i);
    }
  }

  lemma {:induction false} RowsAreAppended(world: World, candidates: set<string>, s0: State, s1: State)
    requires Inv(world, s0) && s0.ledger <= s1.ledger
    requires forall t :: t in Appended(s0, s1) ==> t.eventId.Some? && t.eventId.value in candidates
    requires forall id :: id in candidates ==> id !in s0.rows
    ensures var rows := PostedRows(s1.ledger, candidates);
      && |rows| == |Appended(s0, s1)|
      && forall i :: 0 <= i < |rows| ==> Appended(s0, s1)[i].eventId == Some(rows[i])
  {
    var appended := Appended(s0, s1);
    OldTxnsOldRows(world, s0);
    NoRows(s0.ledger, candidates);
    AllRows(appended, candidates);
    assert s1.ledger == s0.ledger + appended;
    RowsConcat(s0.ledger, appended, candidates);
    assert PostedRows(s1.ledger, candidates) == PostedRows(appended, candidates);
  }

  lemma {:induction false} RowIds(appended: seq<Txn>, rows: seq<string>, id: string)
    requires |rows| == |appended| && forall i :: 0 <= i < |rows| ==> appended[i].eventId == Some(rows[i])
    ensures (exists i :: 0 <= i < |rows| && rows[i] == id) <==> exists t :: t in appended && t.eventId == Some(id)
  {
    if i :| 0 <= i < |rows| && rows[i] == id {
      assert appended[i] in appended;
    }
    if t :| t in appended && t.eventId == Some(id) {
      var i :| 0 <= i < |appended| && appended[i] == t;
      assert rows[i] == id;
    }
  }

  lemma {:induction false} AppendedAreCandidates(
      world: World, intended: seq<Fixture>, candidates: set<string>, s0: State, s1: State)
    requires Records(world, s0, s1, intended) && Apart(intended)
    requires Ids(intended) <= candidates
    ensures forall t :: t in Appended(s0, s1) ==> t.eventId.Some? && t.eventId.value in candidates
  {
    forall t | t in Appended(s0, s1) ensures t.eventId.Some? && t.eventId.value in candidates {
      var f :| f in EventsOf(MoneyOnes(intended)) && Moves(world.fees, f) && t == MoveOf(world.fees, f);
      MoveNamesEvent(world.fees, f);
      AppendedIds(world, s0, s1, intended, t.eventId.value);
    }
  }

  lemma {:induction false} RowSet(rows: seq<string>, ids: set<string>)
    requires forall id :: (exists i :: 0 <= i < |rows| && rows[i] == id) <==> id in ids
    ensures (set i | 0 <= i < |rows| :: rows[i]) == ids
  {
  }

  /** The candidates' transactions are the expected ones, one each. */
  lemma {:induction false} RowsAgree(
      world: World, fixtures: seq<Fixture>, intended: seq<Fixture>, candidates: set<string>, s0: State, s1: State)
    requires Inv(world, s0) && Records(world, s0, s1, intended) && Apart(intended) && Distinct(intended, IdOf)
    requires Distinct(fixtures, IdOf) && forall fx :: fx in intended ==> fx in fixtures
    requires Ids(intended) <= candidates && forall id :: id in candidates ==> id !in s0.rows
    ensures var rows := PostedRows(s1.ledger, candidates);
      |rows| == |Ids(intended)| && (set i | 0 <= i < |rows| :: rows[i]) == Ids(intended)
  {
    AppendedAreCandidates(world, intended, candidates, s0, s1);
    RowsAreAppended(world, candidates, s0, s1);
    ExpectedIsIntended(fixtures, intended, Bank);
    var rows := PostedRows(s1.ledger, candidates);
    forall id ensures (exists i :: 0 <= i < |rows| && rows[i] == id) <==> id in Ids(intended) {
      AppendedIds(world, s0, s1, intended, id);
      RowIds(Appended(s0, s1), rows, id);
    }
    RowSet(rows, Ids(intended));
  }

  // ------------------------------------------------------------ replies --

  lemma {:induction false} PlanReasons(
      kit: Kit, fault: Fault, fixtures: seq<Fixture>, params: Params, ts: int, plan: FaultPlan, k: nat)
    requires Plan(kit, fault, fixtures, params, ts) == Ok(plan) && k < |plan.deliveries|
    ensures plan.deliveries[k].expectReason.Some? ==>
      plan.deliveries[k].expectRejected && plan.deliveries[k].expectReason == Some(INVALID_SIGNATURE)
    ensures plan.deliveries[k].eventId == fixtures[0].event.id || plan.deliveries[k].eventId == TwinOf(fixtures[0].event).id
      || exists i :: 0 <= i < |fixtures| && fixtures[i].event.id == plan.deliveries[k].eventId
  {
  }

  predicate RefusedReply(d: Delivery, r: Reply) {
    && (d.expectRejected ==> r == Reply(Some(400), INVALID_SIGNATURE))
    && (d.expectReason.Some? ==> d.expectRejected && d.expectReason == Some(INVALID_SIGNATURE))
  }

  lemma {:induction false} NothingSlipped(deliveries: seq<Delivery>, replies: seq<Reply>)
    requires |deliveries| == |replies|
    requires forall k :: 0 <= k < |deliveries| ==> RefusedReply(deliveries[k], replies[k])
    ensures Accepting(deliveries, replies) == [] && MisRefused(deliveries, replies) == []
  {
    if deliveries != [] {
      var n := |deliveries| - 1;
      assert RefusedReply(deliveries[n], replies[n]);
      forall k | 0 <= k < n ensures RefusedReply(deliveries[..n][k], replies[..n][k]) {
        assert RefusedReply(deliveries[k], replies[k]);
      }
      NothingSlipped(deliveries[..n], replies[..n]);
    }
  }

  /** Every forged or late delivery is refused, and by the signature check. */
  lemma {:induction false} ForgeriesRefused(
      site: Site, fault: Fault, fixtures: seq<Fixture>, params: Params, ts: int, plan: FaultPlan, at: seq<int>, replies: seq<Reply>)
    requires Sane(site, fixtures) && Fits(site, fixtures)
    requires Plan(site.kit, fault, fixtures, params, ts) == Ok(plan)
    requires InTime(AllSent(plan), ts, at) && Answers(site, AllSent(plan), at, replies)
    ensures |plan.deliveries| <= |replies|
    ensures Accepting(plan.deliveries, replies[..|plan.deliveries|]) == []
    ensures MisRefused(plan.deliveries, replies[..|plan.deliveries|]) == []
  {
    PassingIsCarried(site, fault, fixtures, params, ts, plan, at);
    var sent, n := AllSent(plan), |plan.deliveries|;
    forall k | 0 <= k < n ensures RefusedReply(plan.deliveries[k], replies[..n][k]) {
      PlanReasons(site.kit, fault, fixtures, params, ts, plan, k);
      assert sent[k] == plan.deliveries[k];
    }
    NothingSlipped(plan.deliveries, replies[..n]);
  }

  // -------------------------------------------------------------- drops --

  lemma {:induction false} WantLast(before: seq<ReconExpected.Expected>, x: ReconExpected.Expected, id: string)
    ensures ReconExpected.Want(before + [x], id) ==
      if !ReconExpected.Delivered(before, id) && x.eventId == id then NonZero(x.delta) else ReconExpected.Want(before, id)
  {
    hide NonZero, ReconExpected.Delivered;
    assert (before + [x])[..|before|] == before;
  }

  lemma {:induction false} WantOfFixture(fixtures: seq<Fixture>, i: nat)
    requires Distinct(fixtures, IdOf) && i < |fixtures|
    ensures ReconExpected.Delivered(ExpectedOf(fixtures), fixtures[i].event.id)
    ensures ReconExpected.Want(ExpectedOf(fixtures), fixtures[i].event.id) == NonZero(fixtures[i].expectedDelta)
  {
    hide NonZero, ReconExpected.Want;
    var n := |fixtures| - 1;
    var id := fixtures[i].event.id;
    var before, last := ExpectedOf(fixtures[..n]), ExpectedOf(fixtures)[n];
    assert ExpectedOf(fixtures) == before + [last];
    assert ExpectedOf(fixtures)[i].eventId == id;
    WantLast(before, last, id);
    if i < n {
      WantOfFixture(fixtures[..n], i);
    } else {
      forall j | 0 <= j < |before| ensures before[j].eventId != id {
        assert IdOf(fixtures[j]) != IdOf(fixtures[n]);
      }
    }
  }

  lemma {:induction false} MissingFound(ledger: seq<Txn>, fixtures: seq<Fixture>, candidates: set<string>, i: nat)
    requires Distinct(fixtures, IdOf) && i < |fixtures| && Made(fixtures[i])
    requires fixtures[i].expectedDelta != map[] && fixtures[i].event.id in candidates
    requires forall t :: t in ledger ==> t.eventId != Some(fixtures[i].event.id)
    ensures ReportsMissing(ledger, fixtures, candidates)
  {
    var id, expected := fixtures[i].event.id, ExpectedOf(fixtures);
    WantOfFixture(fixtures, i);
    FixtureMoves(e => 0, fixtures[i]);
    assert NonZero(fixtures[i].expectedDelta) == fixtures[i].expectedDelta;
    var summaries := Recon.Summaries(ledger);
    forall t | t in summaries ensures t.eventId != Some(id) {
      var k :| 0 <= k < |summaries| && summaries[k] == t;
      assert ledger[k] in ledger;
    }
    var b := ReconExpected.MissingInLedger(id, ReconExpected.AbsSum(ReconExpected.Want(expected, id)) / 2);
    assert ReconExpected.Diff(b, summaries, expected);
  }

  lemma {:induction false} MissingMoves(ledger: seq<Txn>, fixtures: seq<Fixture>, candidates: set<string>)
    requires Distinct(fixtures, IdOf) && ReportsMissing(ledger, fixtures, candidates)
    ensures exists i :: 0 <= i < |fixtures| && fixtures[i].expectedDelta != map[]
  {
    var b: ReconExpected.Break :|
      ReconExpected.Diff(b, Recon.Summaries(ledger), ExpectedOf(fixtures)) && b.MissingInLedger? && b.eventId in candidates;
    var i :| 0 <= i < |ExpectedOf(fixtures)| && ExpectedOf(fixtures)[i].eventId == b.eventId;
    WantOfFixture(fixtures, i);
  }

  // ------------------------------------------------------- the theorem --

  lemma {:induction false} CandidatesUnseen(
      kit: Kit, fault: Fault, fixtures: seq<Fixture>, params: Params, ts: int, plan: FaultPlan, s0: State)
    requires Plan(kit, fault, fixtures, params, ts) == Ok(plan) && Unseen(s0, fixtures)
    ensures forall id :: id in CandidateIds(plan, fixtures) ==> id !in s0.rows
  {
    forall id | id in CandidateIds(plan, fixtures) ensures id !in s0.rows {
      if k :| 0 <= k < |plan.deliveries| && plan.deliveries[k].eventId == id {
        PlanReasons(kit, fault, fixtures, params, ts, plan, k);
      }
    }
  }

  lemma {:induction false} IntendedAreCandidates(plan: FaultPlan, fixtures: seq<Fixture>, intended: seq<Fixture>)
    requires forall fx :: fx in intended ==> fx in fixtures
    ensures Ids(intended) <= CandidateIds(plan, fixtures)
  {
    forall id | id in Ids(intended) ensures id in CandidateIds(plan, fixtures) {
      var i :| 0 <= i < |intended| && intended[i].expectedDelta != map[] && intended[i].event.id == id;
      assert intended[i] in fixtures;
      var j :| 0 <= j < |fixtures| && fixtures[j] == intended[i];
    }
  }

  /** One run of a plan in the terms of what an operator waits for: quiet again, every
      event that got through answered 200, and the new rows clear. */
  ghost predicate DrainedRun(
      world: World, site: Site, plan: FaultPlan, at: seq<int>, s0: State, steps: seq<Step>, s1: State)
  {
    && Inv(world, s0) && Quiet(s0) && Run(world, s0, steps, s1) && Quiet(s1)
    && (forall i :: 0 <= i < |steps| ==> !steps[i].Redrive? && !steps[i].Approve?)
    && |at| == |AllSent(plan)|
    && s0.received <= s1.received && Since(s0, s1) == Passing(site, AllSent(plan), at)
    && AllAnswered(s0, s1) && Clear(s0, s1)
  }

  /** Such a run has settled: that is no premise of its own. */
  lemma {:induction false} DrainedIsScenario(
      world: World, site: Site, fault: Fault, fixtures: seq<Fixture>, params: Params, ts: int, plan: FaultPlan,
      at: seq<int>, s0: State, steps: seq<Step>, s1: State)
    requires Sane(site, fixtures) && Fits(site, fixtures) && Unseen(s0, fixtures)
    requires Plan(site.kit, fault, fixtures, params, ts) == Ok(plan) && InTime(AllSent(plan), ts, at)
    requires DrainedRun(world, site, plan, at, s0, steps, s1)
    ensures Scenario(world, site, plan, at, s0, steps, s1)
  {
    PassingIsCarried(site, fault, fixtures, params, ts, plan, at);
    CarriedIsUnseen(s0, fault, fixtures, params);
    ScenarioIsOurs(world, s0, steps, s1);
    DrainedSettles(world, s0, steps, s1);
  }

  /** What a scenario's observation shows, plan by plan. */
  ghost predicate AsPlanned(exp: Expectation, obs: V.Observation) {
    && obs.invariantAfter && obs.quiescent
    && obs.ledgerDiff == exp.balancesDelta
    && obs.posted == exp.posted && obs.transactions == |exp.posted|
    && (exp.rejected != {} ==> exp.posted == {})
    && obs.acceptedRejected == [] && obs.wrongReason == []
  }

  lemma {:induction false} AsPlannedBreaks(exp: Expectation, obs: V.Observation)
    requires AsPlanned(exp, obs)
    ensures (forall b :: !V.Breaks(exp, obs, b)) <==>
      (exp.shouldReportBreak ==> obs.reconReported) && obs.responsive != Some(false)
  {
    if forall b :: !V.Breaks(exp, obs, b) {
      assert !V.Breaks(exp, obs, V.ReconcilerMissedDrop);
      assert !V.Breaks(exp, obs, V.IngestUnresponsive);
    }
  }

  /** Everything a plan's premises say of one run. */
  ghost predicate Runs(
      world: World, site: Site, fault: Fault, fixtures: seq<Fixture>, params: Params, ts: int, plan: FaultPlan,
      at: seq<int>, replies: seq<Reply>, s0: State, steps: seq<Step>, s1: State)
  {
    && Sane(site, fixtures) && Fits(site, fixtures) && Apart(fixtures) && Unseen(s0, fixtures)
    && Plan(site.kit, fault, fixtures, params, ts) == Ok(plan)
    && InTime(AllSent(plan), ts, at) && Scenario(world, site, plan, at, s0, steps, s1)
    && Answers(site, AllSent(plan), at, replies)
  }

  lemma {:induction false} RunsRecord(
      world: World, site: Site, fault: Fault, fixtures: seq<Fixture>, params: Params, ts: int, plan: FaultPlan,
      at: seq<int>, replies: seq<Reply>, s0: State, steps: seq<Step>, s1: State)
    requires Runs(world, site, fault, fixtures, params, ts, plan, at, replies, s0, steps, s1)
    ensures Inv(world, s0) && Inv(world, s1)
    ensures var intended := Intended(fault, fixtures, params);
      && Records(world, s0, s1, intended)
      && Apart(intended) && Distinct(fixtures, IdOf) && Distinct(intended, IdOf)
      && (forall fx :: fx in intended ==> fx in fixtures)
      && plan.expectation.posted == Ids(intended)
  {
    ScenarioRecords(world, site, fault, fixtures, params, ts, plan, at, s0, steps, s1);
    IntendedIsApart(fault, fixtures, params);
    PlanPosts(site.kit, fault, fixtures, params, ts, plan);
  }

  /** The balances move as the plan expects. */
  lemma {:induction false} RunsDiff(
      world: World, site: Site, fault: Fault, fixtures: seq<Fixture>, params: Params, ts: int, plan: FaultPlan,
      at: seq<int>, replies: seq<Reply>, s0: State, steps: seq<Step>, s1: State)
    requires Runs(world, site, fault, fixtures, params, ts, plan, at, replies, s0, steps, s1)
    ensures BalanceDiff(AllBalances(AllEntries(s0.ledger)), AllBalances(AllEntries(s1.ledger)))
      == plan.expectation.balancesDelta
  {
    RunsRecord(world, site, fault, fixtures, params, ts, plan, at, replies, s0, steps, s1);
    PlanExpects(site.kit, fault, fixtures, params, ts, plan);
    DiffAgrees(world, fixtures, Intended(fault, fixtures, params), s0, s1);
  }

  /** One transaction is posted per expected event, and no other. */
  lemma {:induction false} RunsRows(
      world: World, site: Site, fault: Fault, fixtures: seq<Fixture>, params: Params, ts: int, plan: FaultPlan,
      at: seq<int>, replies: seq<Reply>, s0: State, steps: seq<Step>, s1: State)
    requires Runs(world, site, fault, fixtures, params, ts, plan, at, replies, s0, steps, s1)
    ensures var rows := PostedRows(s1.ledger, CandidateIds(plan, fixtures));
      |rows| == |plan.expectation.posted| && (set i | 0 <= i < |rows| :: rows[i]) == plan.expectation.posted
  {
    var intended := Intended(fault, fixtures, params);
    RunsRecord(world, site, fault, fixtures, params, ts, plan, at, replies, s0, steps, s1);
    CandidatesUnseen(site.kit, fault, fixtures, params, ts, plan, s0);
    IntendedAreCandidates(plan, fixtures, intended);
    RowsAgree(world, fixtures, intended, CandidateIds(plan, fixtures), s0, s1);
  }

  lemma {:induction false} DropChangesNothing(
      world: World, site: Site, fixtures: seq<Fixture>, params: Params, ts: int, plan: FaultPlan,
      at: seq<int>, replies: seq<Reply>, s0: State, steps: seq<Step>, s1: State)
    requires Runs(world, site, Drop, fixtures, params, ts, plan, at, replies, s0, steps, s1)
    ensures Inv(world, s0) && s1.ledger == s0.ledger && Distinct(fixtures, IdOf)
  {
    hide Plan;
    RunsRecord(world, site, Drop, fixtures, params, ts, plan, at, replies, s0, steps, s1);
    assert MoneyOnes([]) == [] && |Appended(s0, s1)| == 0;
    assert s1.ledger == s0.ledger + Appended(s0, s1);
  }

  lemma {:induction false} RunsQuiescent(fixtures: seq<Fixture>, s0: State, s1: State)
    requires Unseen(s0, fixtures) && Quiet(s1) && SettledRows(s0, s1)
    ensures Quiescent(s1, fixtures)
  {
  }

  lemma {:induction false} LedgerConserves(world: World, s: State)
    requires Inv(world, s)
    ensures InvariantCheck(AllBalances(AllEntries(s.ledger))).Ok()
  {
    forall t | t in s.ledger ensures Commits(t.entries) {
      assert TxnFits(world, s, t);
    }
    Conservation(s.ledger);
  }

  lemma {:induction false} RunsAsPlanned(
      world: World, site: Site, fault: Fault, fixtures: seq<Fixture>, params: Params, ts: int, plan: FaultPlan,
      at: seq<int>, replies: seq<Reply>, s0: State, steps: seq<Step>, s1: State, responsive: Option<bool>)
    requires Runs(world, site, fault, fixtures, params, ts, plan, at, replies, s0, steps, s1)
    ensures |plan.deliveries| <= |replies|
    ensures AsPlanned(plan.expectation, Observe(plan, fixtures, replies, s0, s1, responsive))
  {
    hide Plan;
    RunsRecord(world, site, fault, fixtures, params, ts, plan, at, replies, s0, steps, s1);
    RunsDiff(world, site, fault, fixtures, params, ts, plan, at, replies, s0, steps, s1);
    RunsRows(world, site, fault, fixtures, params, ts, plan, at, replies, s0, steps, s1);
    RunsQuiescent(fixtures, s0, s1);
    LedgerConserves(world, s1);
    ForgeriesRefused(site, fault, fixtures, params, ts, plan, at, replies);
    PlanRefuses(site.kit, fault, fixtures, params, ts, plan);
    PlanPosts(site.kit, fault, fixtures, params, ts, plan);
    assert Ids([]) == {};
  }

  lemma {:induction false} DropReports(
      world: World, kit: Kit, fixtures: seq<Fixture>, params: Params, ts: int, plan: FaultPlan, s0: State)
    requires Inv(world, s0) && Apart(fixtures) && Distinct(fixtures, IdOf) && Unseen(s0, fixtures)
    requires Plan(kit, Drop, fixtures, params, ts) == Ok(plan)
    ensures ReportsMissing(s0.ledger, fixtures, CandidateIds(plan, fixtures)) <==>
      exists i :: 0 <= i < |fixtures| && fixtures[i].expectedDelta != map[]
  {
    OldTxnsOldRows(world, s0);
    if i :| 0 <= i < |fixtures| && fixtures[i].expectedDelta != map[] {
      assert fixtures[i].event.id in CandidateIds(plan, fixtures) && fixtures[i].event.id !in s0.rows;
      MissingFound(s0.ledger, fixtures, CandidateIds(plan, fixtures), i);
    }
    if ReportsMissing(s0.ledger, fixtures, CandidateIds(plan, fixtures)) {
      MissingMoves(s0.ledger, fixtures, CandidateIds(plan, fixtures));
    }
  }

  /** Plan soundness: for every fault and every list of distinct fixtures, any
      interleaving that runs the plan's deliveries to quiescence is judged without a
      break, exactly when ingest stayed responsive and, for a dropped delivery, there
      was money to miss (the combinations the scenario generator skips otherwise). */
  lemma {:induction false} PlanSoundness(
      world: World, site: Site, fault: Fault, fixtures: seq<Fixture>, params: Params, ts: int, plan: FaultPlan,
      at: seq<int>, replies: seq<Reply>, s0: State, steps: seq<Step>, s1: State, responsive: Option<bool>)
    requires Runs(world, site, fault, fixtures, params, ts, plan, at, replies, s0, steps, s1)
    ensures |plan.deliveries| <= |replies|
    ensures var obs := Observe(plan, fixtures, replies, s0, s1, responsive);
      (forall b :: !V.Breaks(plan.expectation, obs, b)) <==>
      && responsive != Some(false)
      && (fault == Drop ==> exists i :: 0 <= i < |fixtures| && fixtures[i].expectedDelta != map[])
  {
    hide Plan, ReportsMissing;
    RunsAsPlanned(world, site, fault, fixtures, params, ts, plan, at, replies, s0, steps, s1, responsive);
    AsPlannedBreaks(plan.expectation, Observe(plan, fixtures, replies, s0, s1, responsive));
    PlanRefuses(site.kit, fault, fixtures, params, ts, plan);
    if fault == Drop {
      DropChangesNothing(world, site, fixtures, params, ts, plan, at, replies, s0, steps, s1);
      DropReports(world, site.kit, fixtures, params, ts, plan, s0);
    }
  }

  /** The same from what an operator waits for: a plan whose deliveries were run until
      the pipeline was quiet, every event that got through answered 200, no new row
      'failed' and no stranded one still open. */
  lemma {:induction false} DrainedPlanSoundness(
      world: World, site: Site, fault: Fault, fixtures: seq<Fixture>, params: Params, ts: int, plan: FaultPlan,
      at: seq<int>, replies: seq<Reply>, s0: State, steps: seq<Step>, s1: State, responsive: Option<bool>)
    requires Sane(site, fixtures) && Fits(site, fixtures) && Apart(fixtures) && Unseen(s0, fixtures)
    requires Plan(site.kit, fault, fixtures, params, ts) == Ok(plan) && InTime(AllSent(plan), ts, at)
    requires DrainedRun(world, site, plan, at, s0, steps, s1)
    requires Answers(site, AllSent(plan), at, replies)
    ensures |plan.deliveries| <= |replies|
    ensures var obs := Observe(plan, fixtures, replies, s0, s1, responsive);
      (forall b :: !V.Breaks(plan.expectation, obs, b)) <==>
      && responsive != Some(false)
      && (fault == Drop ==> exists i :: 0 <= i < |fixtures| && fixtures[i].expectedDelta != map[])
  {
    DrainedIsScenario(world, site, fault, fixtures, params, ts, plan, at, s0, steps, s1);
    PlanSoundness(world, site, fault, fixtures, params, ts, plan, at, replies, s0, steps, s1, responsive);
  }

  const ACCEPTED: Reply := Reply(Some(200), "queued")

  lemma {:induction false} SlowPlanSends(site: Site, fx: Fixture, params: Params, ts: int, plan: FaultPlan)
    requires Plan(site.kit, SlowLoris, [fx], params, ts) == Ok(plan)
    ensures |AllSent(plan)| == 1
    ensures var d := AllSent(plan)[0];
      !d.expectRejected && d.body == site.kit.serialize(fx.event) && d.header == Clean(site.kit, fx.event, ts).header
    ensures Carried(SlowLoris, [fx], params) == [fx.event]
  {
    assert [fx][0] == fx;
  }

  lemma {:induction false} SlowPlanPasses(site: Site, fx: Fixture, params: Params, ts: int, plan: FaultPlan)
    requires Sane(site, [fx]) && Fits(site, [fx])
    requires Plan(site.kit, SlowLoris, [fx], params, ts) == Ok(plan)
    ensures InTime(AllSent(plan), ts, [ts])
    ensures Passing(site, AllSent(plan), [ts]) == [fx.event]
    ensures Answers(site, AllSent(plan), [ts], [ACCEPTED])
  {
    hide GateOf, SaneOn, Plan, AllSent, Carried, Passing;
    SlowPlanSends(site, fx, params, ts, plan);
    PassingIsCarried(site, SlowLoris, [fx], params, ts, plan, [ts]);
    assert [fx][0] == fx && Known([fx], fx.event);
    CleanPasses(site, fx.event, ts, ts, AllSent(plan)[0]);
  }

  lemma {:induction false} HappyIsPlain(r: nat, e: Event)
    ensures forall i :: 0 <= i < |HappyPath.HappySteps(r, e)| ==>
      !HappyPath.HappySteps(r, e)[i].Redrive? && !HappyPath.HappySteps(r, e)[i].Approve?
  {
  }

  lemma {:induction false} HappyScenario(world: World, site: Site, plan: FaultPlan, ts: int, s0: State, e: Event)
    returns (steps: seq<Step>, s1: State)
    requires |AllSent(plan)| == 1 && Passing(site, AllSent(plan), [ts]) == [e]
    requires Inv(world, s0) && Quiet(s0) && s0.slots != [] && e in world.universe && !Collides(s0.rows, e)
    requires Moves(world.fees, e) && Commits(MoveOf(world.fees, e).entries)
    ensures Scenario(world, site, plan, [ts], s0, steps, s1)
    ensures s1.ledger == s0.ledger + [MoveOf(world.fees, e)]
  {
    s1 := HappyPath.DeliveredSettles(world, s0, e);
    steps := HappyPath.HappySteps(|s0.reqs|, e);
    HappyIsPlain(|s0.reqs|, e);
    assert Since(s0, s1) == [e];
  }

  /** The premises can be met: a slow delivery of any new fixture the database would
      take, to a quiet pipeline with a worker, has a run of this kind. */
  lemma {:induction false} SlowDeliveryRuns(
      world: World, site: Site, fx: Fixture, params: Params, ts: int, plan: FaultPlan, s0: State)
    returns (steps: seq<Step>, s1: State)
    requires Sane(site, [fx]) && Fits(site, [fx]) && Apart([fx]) && Unseen(s0, [fx])
    requires Plan(site.kit, SlowLoris, [fx], params, ts) == Ok(plan)
    requires Inv(world, s0) && Quiet(s0) && s0.slots != [] && fx.event in world.universe
    requires Moves(world.fees, fx.event) && Commits(MoveOf(world.fees, fx.event).entries)
    ensures Runs(world, site, SlowLoris, [fx], params, ts, plan, [ts], [ACCEPTED], s0, steps, s1)
    ensures s1.ledger == s0.ledger + [MoveOf(world.fees, fx.event)]
  {
    assert [fx][0] == fx;
    SlowPlanPasses(site, fx, params, ts, plan);
    steps, s1 := HappyScenario(world, site, plan, ts, s0, fx.event);
  }

  /** And there is such a site, such a fixture and such a pipeline: one charge of 10.00. */
  lemma {:induction false} ChargeRuns()
    returns (world: World, site: Site, fx: Fixture, plan: FaultPlan, steps: seq<Step>, s1: State)
    ensures Runs(world, site, SlowLoris, [fx], Defaults(SlowLoris), 0, plan, [0], [ACCEPTED], Start(1), steps, s1)
    ensures |s1.ledger| == 1
  {
    hide Fits, DeltaOf, Scenario, PlanDeliveries;
    fx := Make(ChargeKind(1000, 59), "evt_1", "ch_1", "", 0);
    world := World(_ => 0, iset{fx.event});
    site := SaneSite([fx], "whsec");
    plan := Plan(site.kit, SlowLoris, [fx], Defaults(SlowLoris), 0).value;
    ChargeCommits(world, fx);
    StartInv(world, 1);
    assert [fx][0] == fx;
    steps, s1 := SlowDeliveryRuns(world, site, fx, Defaults(SlowLoris), 0, plan, Start(1));
  }

  lemma {:induction false} ChargeCommits(world: World, fx: Fixture)
    requires fx == Make(ChargeKind(1000, 59), "evt_1", "ch_1", "", 0)
    ensures Moves(world.fees, fx.event) && Commits(MoveOf(world.fees, fx.event).entries)
  {
    FixtureAgrees(fx.kind, "evt_1", "ch_1", "", 0, None);
    PayloadAmounts(fx.kind, "ch_1", "", None);
    CommitsIffSound(fx.event, None);
    assert Upper("usd") == CHART_CURRENCY;
  }
}
