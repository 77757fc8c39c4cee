/** What a plan's events leave in the ledger, and what its expectation says they
    should: the two sides of a scenario, before they are compared. */
module PlanEffects {
  import opened Wrappers
  import opened Sums
  import opened Ledger
  import opened Mapping
  import opened Fixtures
  import opened Signature
  import opened Protocol
  import opened Convergence
  import opened Faults
  import opened Deliveries

  /** Fixtures from the makers, no two for one event id or one money movement. */
  ghost predicate Apart(fixtures: seq<Fixture>) {
    && (forall i :: 0 <= i < |fixtures| ==> Made(fixtures[i]))
    && (forall i, j :: 0 <= i < j < |fixtures| ==> !Blocks(fixtures[i].event, fixtures[j].event))
  }

  // ----------------------------------------- repetitions fall away ------

  lemma {:induction false} FirstsOfDistinct(events: seq<Event>)
    requires forall i, j :: 0 <= i < j < |events| ==> !Blocks(events[i], events[j])
    ensures Firsts(events) == events
  {
    if events != [] {
      var before, e := events[..|events| - 1], events[|events| - 1];
      FirstsOfDistinct(before);
      forall f | f in before ensures !Blocks(f, e) {
        var i :| 0 <= i < |before| && before[i] == f;
        assert !Blocks(events[i], events[|before|]);
      }
      assert events == before + [e];
    }
  }

  lemma {:induction false} FirstsOfRepeats(events: seq<Event>)
    requires events != [] && forall i :: 0 <= i < |events| ==> Blocks(events[0], events[i])
    ensures Firsts(events) == [events[0]]
  {
    var before, e := events[..|events| - 1], events[|events| - 1];
    if before == [] {
      assert Firsts(before) == [];
    } else {
      FirstsOfRepeats(before);
      assert events[0] in [events[0]] && Blocks(events[0], e);
    }
  }

  lemma {:induction false} TwinBlocks(fx: Fixture)
    requires Made(fx)
    ensures Blocks(fx.event, TwinOf(fx.event))
  {
    var objectId, chargeId, created :| fx == Make(fx.kind, fx.event.id, objectId, chargeId, created);
    FixtureAgrees(fx.kind, fx.event.id, objectId, chargeId, created, None);
  }

  lemma {:induction false} CarriedAreRepeats(fault: Fault, fixtures: seq<Fixture>, params: Params)
    requires Apart(fixtures) && Intended(fault, fixtures, params) != []
    requires fault != NoFault && fault != Reorder
    requires fault == Duplicated || fault == ConcurrentDuplicate ==> params.n >= 2
    ensures var carried := Carried(fault, fixtures, params);
      carried != [] && carried[0] == fixtures[0].event && forall i :: 0 <= i < |carried| ==> Blocks(carried[0], carried[i])
  {
    TwinBlocks(fixtures[0]);
  }

  /** Whatever a plan repeats, reorders or twins, what it carries comes down to the
      fixtures it means to record, each once. */
  lemma {:induction false} CarriedFirsts(fault: Fault, fixtures: seq<Fixture>, params: Params)
    requires Apart(fixtures)
    requires fault == Duplicated || fault == ConcurrentDuplicate ==> params.n >= 2
    ensures Firsts(Carried(fault, fixtures, params)) == EventsOf(Intended(fault, fixtures, params))
  {
    var intended, carried := Intended(fault, fixtures, params), Carried(fault, fixtures, params);
    if intended != [] {
      if fault == NoFault || fault == Reorder {
        FirstsOfDistinct(carried);
      } else {
        CarriedAreRepeats(fault, fixtures, params);
        FirstsOfRepeats(carried);
      }
    }
  }

  // --------------------------------------------- what a fixture moves ----

  predicate MovesMoney(fx: Fixture) {
    !fx.kind.InvoiceKind?
  }

  function MoneyOnes(fixtures: seq<Fixture>): (r: seq<Fixture>)
    ensures forall fx :: fx in r <==> fx in fixtures && MovesMoney(fx)
  {
    if fixtures == [] then []
    else
      var before, fx := fixtures[..|fixtures| - 1], fixtures[|fixtures| - 1];
      assert fixtures == before + [fx];
      MoneyOnes(before) + if MovesMoney(fx) then [fx] else []
  }

  lemma {:induction false} FixtureMoves(fees: Event -> int, fx: Fixture)
    requires Made(fx)
    ensures Moves(fees, fx.event) <==> MovesMoney(fx)
    ensures MovesMoney(fx) ==> NonZero(AllBalances(MoveOf(fees, fx.event).entries)) == fx.expectedDelta
    ensures !MovesMoney(fx) ==> fx.expectedDelta == map[]
  {
    var objectId, chargeId, created :| fx == Make(fx.kind, fx.event.id, objectId, chargeId, created);
    FixtureAgrees(fx.kind, fx.event.id, objectId, chargeId, created, None);
  }

  lemma {:induction false} FixtureEffect(fees: Event -> int, fx: Fixture, a: Account)
    requires Made(fx) && Ledger.Listed(a)
    ensures Effect(fees, a, fx.event) == Get(fx.expectedDelta, a)
  {
    FixtureMoves(fees, fx);
    if MovesMoney(fx) {
      var bal := AllBalances(MoveOf(fees, fx.event).entries);
      assert Get(NonZero(bal), a) == bal[a];
    }
  }

  lemma {:induction false} MoneyOfFixtures(fees: Event -> int, fixtures: seq<Fixture>)
    requires forall i :: 0 <= i < |fixtures| ==> Made(fixtures[i])
    ensures Money(fees, EventsOf(fixtures)) == EventsOf(MoneyOnes(fixtures))
  {
    hide Made, Moves, MoveOf, MovesMoney, NonZero;
    if fixtures != [] {
      var n := |fixtures| - 1;
      MoneyOfFixtures(fees, fixtures[..n]);
      FixtureMoves(fees, fixtures[n]);
      assert EventsOf(fixtures)[..n] == EventsOf(fixtures[..n]);
      assert Made(fixtures[n]);
      EventsOfAppend(MoneyOnes(fixtures[..n]), fixtures[n]);
      assert MoneyOnes(fixtures[..n]) + [] == MoneyOnes(fixtures[..n]);
    }
  }

  lemma {:induction false} EventsOfAppend(fixtures: seq<Fixture>, fx: Fixture)
    ensures EventsOf(fixtures + [fx]) == EventsOf(fixtures) + [fx.event]
  {
  }

  /** A committed fixture has a delta: the plan knows it as one that moves money. */
  lemma {:induction false} CommittedHasDelta(fees: Event -> int, fx: Fixture)
    requires Made(fx) && MovesMoney(fx) && Moves(fees, fx.event) && Commits(MoveOf(fees, fx.event).entries)
    ensures fx.expectedDelta != map[]
  {
    FixtureMoves(fees, fx);
    var objectId, chargeId, created :| fx == Make(fx.kind, fx.event.id, objectId, chargeId, created);
    FixtureAgrees(fx.kind, fx.event.id, objectId, chargeId, created, None);
    CommitsIffSound(fx.event, None);
    PayloadAmounts(fx.kind, objectId, chargeId, None);
    PricedHasDelta(fx.kind);
  }

  lemma {:induction false} PricedHasDelta(kind: Kind)
    requires !kind.InvoiceKind? && Sound(TypeOf(kind), MovementOf(kind))
    ensures DeltaOf(Lines(kind)) != map[]
  {
    var lines := Lines(kind);
    var a := match kind
      case ChargeKind(_, _) => Revenue
      case RefundKind(_, _) => RefundsContra
      case DisputeKind(_, _) => StripeBalance
      case PayoutKind(_) => Bank
      case InvoiceKind(_) => Bank;
    LineCounts(lines, a);
    LinesPosted(kind, "USD");
  }

  /** The account of a non-zero line on distinct accounts has a non-zero total. */
  lemma {:induction false} LineCounts(lines: seq<Line>, a: Account)
    requires DistinctListed(lines)
    ensures (exists i :: 0 <= i < |lines| && lines[i].account == a && lines[i].amount != 0) ==> a in DeltaOf(lines)
  {
    if lines != [] {
      LineCounts(lines[..|lines| - 1], a);
    }
  }

  // ------------------------------------------- what a plan expects -------

  lemma {:induction false} NothingPosted(fixtures: seq<Fixture>)
    ensures Totals(fixtures, {}) == map[] && SumDelta(fixtures, {}) == map[]
  {
    if fixtures != [] {
      NothingPosted(fixtures[..|fixtures| - 1]);
    }
  }

  lemma {:induction false} IdsBackwards(fixtures: seq<Fixture>)
    ensures Ids(Backwards(fixtures)) == Ids(fixtures)
  {
    var back := Backwards(fixtures);
    forall id | id in Ids(fixtures) ensures id in Ids(back) {
      var i :| 0 <= i < |fixtures| && fixtures[i].expectedDelta != map[] && fixtures[i].event.id == id;
      assert back[|fixtures| - 1 - i] == fixtures[i];
    }
    forall id | id in Ids(back) ensures id in Ids(fixtures) {
      var i :| 0 <= i < |back| && back[i].expectedDelta != map[] && back[i].event.id == id;
      assert back[i] == fixtures[|fixtures| - 1 - i];
    }
  }

  /** Every plan expects its intended money fixtures to post ... */
  lemma {:induction false} PlanPosts(
      kit: Kit, fault: Fault, fixtures: seq<Fixture>, params: Params, ts: int, plan: FaultPlan)
    requires Plan(kit, fault, fixtures, params, ts) == Ok(plan)
    ensures plan.expectation.posted == Ids(Intended(fault, fixtures, params))
  {
    hide PlanDeliveries;
    if Intended(fault, fixtures, params) == [] {
      assert Ids([]) == {};
    } else if fault == Reorder {
      IdsBackwards(fixtures);
    }
  }

  /** ... and the balances to move by their deltas and no more. */
  lemma {:induction false} PlanExpects(
      kit: Kit, fault: Fault, fixtures: seq<Fixture>, params: Params, ts: int, plan: FaultPlan)
    requires Plan(kit, fault, fixtures, params, ts) == Ok(plan)
    ensures plan.expectation.balancesDelta == SumDelta(fixtures, plan.expectation.posted)
  {
    NothingPosted(fixtures);
  }

  /** Its forged or late target is to be refused, and a report is due for a drop. */
  lemma {:induction false} PlanRefuses(
      kit: Kit, fault: Fault, fixtures: seq<Fixture>, params: Params, ts: int, plan: FaultPlan)
    requires Plan(kit, fault, fixtures, params, ts) == Ok(plan)
    ensures plan.fault == fault
    ensures plan.expectation.shouldReportBreak <==> fault == Drop
    ensures plan.expectation.rejected != {} ==>
      Intended(fault, fixtures, params) == [] && plan.expectation.rejected == {fixtures[0].event.id}
    ensures fault == Duplicated || fault == ConcurrentDuplicate ==> params.n >= 2
  {
  }

  // -------------------------------------------------- the two sums meet --

  function Kept(fixtures: seq<Fixture>, posted: set<string>): (r: seq<Fixture>)
    ensures forall fx :: fx in r <==> fx in fixtures && fx.event.id in posted
  {
    if fixtures == [] then []
    else
      var before, fx := fixtures[..|fixtures| - 1], fixtures[|fixtures| - 1];
      assert fixtures == before + [fx];
      Kept(before, posted) + if fx.event.id in posted then [fx] else []
  }

  function IdOf(fx: Fixture): string {
    fx.event.id
  }

  lemma {:induction false} KeptSum(fixtures: seq<Fixture>, posted: set<string>, a: Account)
    ensures TotalAt(fixtures, posted, a) == Sum(Kept(fixtures, posted), (fx: Fixture) => Get(fx.expectedDelta, a))
  {
    if fixtures != [] {
      var n := |fixtures| - 1;
      KeptSum(fixtures[..n], posted, a);
      if fixtures[n].event.id in posted {
        SumLast(Kept(fixtures[..n], posted), fixtures[n], (fx: Fixture) => Get(fx.expectedDelta, a));
      } else {
        assert Kept(fixtures, posted) == Kept(fixtures[..n], posted);
      }
    }
  }

  lemma {:induction false} KeptDistinct(fixtures: seq<Fixture>, posted: set<string>)
    requires Distinct(fixtures, IdOf)
    ensures Distinct(Kept(fixtures, posted), IdOf)
  {
    if fixtures != [] {
      var n := |fixtures| - 1;
      KeptDistinct(fixtures[..n], posted);
      LastIdIsNew(fixtures, n);
    }
  }

  lemma {:induction false} MoneyOnesDistinct(fixtures: seq<Fixture>)
    requires Distinct(fixtures, IdOf)
    ensures Distinct(MoneyOnes(fixtures), IdOf)
  {
    if fixtures != [] {
      var n := |fixtures| - 1;
      MoneyOnesDistinct(fixtures[..n]);
      LastIdIsNew(fixtures, n);
    }
  }

  lemma {:induction false} LastIdIsNew(fixtures: seq<Fixture>, n: nat)
    requires Distinct(fixtures, IdOf) && n + 1 == |fixtures|
    ensures forall fx :: fx in fixtures[..n] ==> IdOf(fx) != IdOf(fixtures[n])
  {
    forall fx | fx in fixtures[..n] ensures IdOf(fx) != IdOf(fixtures[n]) {
      var i :| 0 <= i < n && fixtures[i] == fx;
    }
  }

  lemma {:induction false} IntendedIsApart(fault: Fault, fixtures: seq<Fixture>, params: Params)
    requires Apart(fixtures)
    ensures Apart(Intended(fault, fixtures, params))
    ensures forall fx :: fx in Intended(fault, fixtures, params) ==> fx in fixtures
    ensures Distinct(Intended(fault, fixtures, params), IdOf) && Distinct(fixtures, IdOf)
  {
    var intended := Intended(fault, fixtures, params);
    if fault == Reorder && intended != [] {
      forall i, j | 0 <= i < j < |intended| ensures !Blocks(intended[i].event, intended[j].event) {
        assert !Blocks(fixtures[|fixtures| - 1 - j].event, fixtures[|fixtures| - 1 - i].event);
      }
    }
  }

  lemma {:induction false} SameIdSame(fixtures: seq<Fixture>, x: Fixture, y: Fixture)
    requires Distinct(fixtures, IdOf) && x in fixtures && y in fixtures && IdOf(x) == IdOf(y)
    ensures x == y
  {
    var i :| 0 <= i < |fixtures| && fixtures[i] == x;
    var j :| 0 <= j < |fixtures| && fixtures[j] == y;
    assert i == j;
  }

  /** All money fixtures of the intended list have a delta: they have committed. */
  ghost predicate Dealt(intended: seq<Fixture>) {
    forall fx :: fx in intended && MovesMoney(fx) ==> fx.expectedDelta != map[]
  }

  lemma {:induction false} MoneyIds(intended: seq<Fixture>, id: string)
    requires Apart(intended) && Dealt(intended)
    ensures Carries(MoneyOnes(intended), IdOf, id) <==> id in Ids(intended)
  {
    var money := MoneyOnes(intended);
    if i :| 0 <= i < |money| && IdOf(money[i]) == id {
      assert money[i] in money;
      var j :| 0 <= j < |intended| && intended[j] == money[i];
    }
    if id in Ids(intended) {
      var j :| 0 <= j < |intended| && intended[j].expectedDelta != map[] && intended[j].event.id == id;
      assert Made(intended[j]);
      FixtureMoves(e => 0, intended[j]);
      assert intended[j] in money;
      var i :| 0 <= i < |money| && money[i] == intended[j];
      assert IdOf(money[i]) == id;
    }
  }

  lemma {:induction false} KeptIds(fixtures: seq<Fixture>, intended: seq<Fixture>, id: string)
    requires forall fx :: fx in intended ==> fx in fixtures
    ensures Carries(Kept(fixtures, Ids(intended)), IdOf, id) <==> id in Ids(intended)
  {
    var kept := Kept(fixtures, Ids(intended));
    if i :| 0 <= i < |kept| && IdOf(kept[i]) == id {
      assert kept[i] in kept;
    }
    if id in Ids(intended) {
      var j :| 0 <= j < |intended| && intended[j].expectedDelta != map[] && intended[j].event.id == id;
      assert intended[j] in intended && intended[j] in kept;
      var i :| 0 <= i < |kept| && kept[i] == intended[j];
      assert IdOf(kept[i]) == id;
    }
  }

  /** What the plan says the accounts gain is what its money fixtures bring. */
  lemma {:induction false} ExpectedIsIntended(fixtures: seq<Fixture>, intended: seq<Fixture>, a: Account)
    requires Apart(intended) && Dealt(intended) && Distinct(fixtures, IdOf) && Distinct(intended, IdOf)
    requires forall fx :: fx in intended ==> fx in fixtures
    ensures TotalAt(fixtures, Ids(intended), a) == Sum(MoneyOnes(intended), (fx: Fixture) => Get(fx.expectedDelta, a))
    ensures |MoneyOnes(intended)| == |Ids(intended)|
  {
    var posted := Ids(intended);
    var money, kept := MoneyOnes(intended), Kept(fixtures, posted);
    KeptSum(fixtures, posted, a);
    KeptDistinct(fixtures, posted);
    MoneyOnesDistinct(intended);
    forall id ensures (Carries(kept, IdOf, id) <==> id in posted) && (Carries(money, IdOf, id) <==> id in posted) {
      KeptIds(fixtures, intended, id);
      MoneyIds(intended, id);
    }
    var f := (fx: Fixture) => Get(fx.expectedDelta, a);
    forall i, j | 0 <= i < |kept| && 0 <= j < |money| && IdOf(kept[i]) == IdOf(money[j])
      ensures f(kept[i]) == f(money[j])
    {
      assert kept[i] in kept && money[j] in money;
      SameIdSame(fixtures, kept[i], money[j]);
    }
    SumByKey(kept, money, IdOf, IdOf, f, f);
    DistinctCount(money, posted);
  }

  lemma {:induction false} DistinctCount(fixtures: seq<Fixture>, ids: set<string>)
    requires Distinct(fixtures, IdOf)
    requires forall id :: Carries(fixtures, IdOf, id) <==> id in ids
    ensures |fixtures| == |ids|
  {
    if fixtures == [] {
      assert forall id :: id in ids ==> Carries(fixtures, IdOf, id);
      assert ids == {};
    } else {
      var n := |fixtures| - 1;
      var last := IdOf(fixtures[n]);
      assert Carries(fixtures, IdOf, last);
      forall id ensures Carries(fixtures[..n], IdOf, id) <==> id in ids - {last} {
        WithoutKey(fixtures, n, IdOf, id);
        assert fixtures[..n] + fixtures[n + 1..] == fixtures[..n];
      }
      DistinctCount(fixtures[..n], ids - {last});
    }
  }
}
