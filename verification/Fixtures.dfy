/** The harness's event fixtures and their ground-truth deltas
    (harness/events.py), written down apart from the mapping and then proved to
    agree with it. */
module Fixtures {
  import opened Wrappers
  import opened Ledger
  import opened Mapping

  datatype Kind =
    | ChargeKind(amount: int, fee: int)
    | RefundKind(amount: int, refunded: int)
    | DisputeKind(amount: int, fee: int)
    | PayoutKind(amount: int)
    | InvoiceKind(amount: int)

  datatype Fixture = Fixture(event: Event, kind: Kind, expectedDelta: Balances)

  datatype Line = Line(account: Account, dir: Direction, amount: int)

  function SignedDelta(l: Line): int {
    if Some(l.dir) == Normal(l.account) then l.amount else -l.amount
  }

  function DeltaOf(lines: seq<Line>): Balances {
    if lines == [] then map[]
    else
      var totals, l := DeltaOf(lines[..|lines| - 1]), lines[|lines| - 1];
      if l.amount == 0 then totals else totals[l.account := Get(totals, l.account) + SignedDelta(l)]
  }

  method Delta(lines: seq<Line>) returns (totals: Balances)
    ensures totals == DeltaOf(lines)
  {
    totals := map[];
    for i := 0 to |lines|
      invariant totals == DeltaOf(lines[..i])
    {
      assert lines[..i + 1][..i] == lines[..i];
      var l := lines[i];
      if l.amount != 0 {
        totals := totals[l.account := Get(totals, l.account) + SignedDelta(l)];
      }
    }
    assert lines[..|lines|] == lines;
  }

  function TypeOf(kind: Kind): EventType {
    match kind
    case ChargeKind(_, _) => ChargeSucceeded
    case RefundKind(_, _) => ChargeRefunded
    case DisputeKind(_, _) => DisputeCreated
    case PayoutKind(_) => PayoutPaid
    case InvoiceKind(_) => InvoicePaymentFailed
  }

  function Lines(kind: Kind): seq<Line> {
    match kind
    case ChargeKind(amount, fee) =>
      [Line(StripeBalance, Debit, amount - fee), Line(ProcessingFees, Debit, fee), Line(Revenue, Credit, amount)]
    case RefundKind(_, refunded) =>
      [Line(RefundsContra, Debit, refunded), Line(StripeBalance, Credit, refunded)]
    case DisputeKind(amount, fee) =>
      [Line(DisputeLosses, Debit, amount), Line(ProcessingFees, Debit, fee),
       Line(StripeBalance, Credit, amount + fee)]
    case PayoutKind(amount) => [Line(Bank, Debit, amount), Line(StripeBalance, Credit, amount)]
    case InvoiceKind(_) => []
  }

  /** The payload object of each maker; objectId is the id of what moved, so a
      refund's charge id is a second id. */
  function Payload(kind: Kind, objectId: string, chargeId: string): MoneyObject {
    var blank := MoneyObject(Some(objectId), Some("usd"), None, None, None, None, None, [], []);
    match kind
    case ChargeKind(amount, fee) => blank.(amount := Some(amount), balanceTransaction := Some(Expanded(fee)))
    case RefundKind(amount, refunded) =>
      blank.(id := Some(chargeId), amount := Some(amount), amountRefunded := Some(refunded),
             refunds := [Refund(Some(objectId), Some(refunded))])
    case DisputeKind(amount, fee) => blank.(amount := Some(amount), balanceTransactions := [Expanded(fee)])
    case PayoutKind(amount) =>
      blank.(amount := Some(amount), balanceTransaction := Some(Unexpanded(objectId)))
    case InvoiceKind(_) => blank
  }

  function Make(kind: Kind, eventId: string, objectId: string, chargeId: string, created: int): Fixture {
    Fixture(
      Event(eventId, TypeOf(kind), Some(created), Some(Payload(kind, objectId, chargeId))),
      kind, DeltaOf(Lines(kind)))
  }

  /** fx came out of one of the five makers. */
  ghost predicate Made(fx: Fixture) {
    exists objectId, chargeId, created :: fx == Make(fx.kind, fx.event.id, objectId, chargeId, created)
  }

  function Posted(lines: seq<Line>, currency: string): seq<Entry> {
    if lines == [] then []
    else
      var l := lines[|lines| - 1];
      Posted(lines[..|lines| - 1], currency) + Leg(l.account, l.dir, l.amount, currency)
  }

  /** Posting the lines and summing them agree, account by account. */
  lemma {:induction false} PostedBalance(a: Account, lines: seq<Line>, currency: string)
    ensures Balance(a, Posted(lines, currency)) == Get(DeltaOf(lines), a)
  {
    if lines != [] {
      var rest, l := lines[..|lines| - 1], lines[|lines| - 1];
      PostedBalance(a, rest, currency);
      var leg := Leg(l.account, l.dir, l.amount, currency);
      BalanceConcat(a, Posted(rest, currency), leg);
      assert leg != [] ==> leg[..0] == [];
    }
  }

  ghost predicate DistinctListed(lines: seq<Line>) {
    && (forall i :: 0 <= i < |lines| ==> Listed(lines[i].account))
    && (forall i, j :: 0 <= i < j < |lines| ==> lines[i].account != lines[j].account)
  }

  lemma {:induction false} DeltaHasNoZero(lines: seq<Line>)
    requires DistinctListed(lines)
    ensures forall a :: a in DeltaOf(lines) ==>
      Listed(a) && DeltaOf(lines)[a] != 0 && exists i :: 0 <= i < |lines| && lines[i].account == a
  {
    if lines != [] {
      DeltaHasNoZero(lines[..|lines| - 1]);
    }
  }

  lemma {:induction false} SameNonZero(posted: Balances, delta: Balances)
    requires forall a :: a in posted <==> Listed(a)
    requires forall a :: a in delta ==> Listed(a) && delta[a] != 0
    requires forall a :: Listed(a) ==> posted[a] == Get(delta, a)
    ensures NonZero(posted) == delta
  {
  }

  lemma {:induction false} PostedNonZero(lines: seq<Line>, currency: string)
    requires DistinctListed(lines)
    ensures NonZero(AllBalances(Posted(lines, currency))) == DeltaOf(lines)
  {
    DeltaHasNoZero(lines);
    var posted, delta := AllBalances(Posted(lines, currency)), DeltaOf(lines);
    forall a | Listed(a) ensures posted[a] == Get(delta, a) {
      PostedBalance(a, lines, currency);
    }
    SameNonZero(posted, delta);
  }

  lemma {:induction false} PostedThree(lines: seq<Line>, currency: string)
    requires 2 <= |lines| <= 3
    ensures Posted(lines, currency) ==
      Leg(lines[0].account, lines[0].dir, lines[0].amount, currency)
      + Leg(lines[1].account, lines[1].dir, lines[1].amount, currency)
      + if |lines| == 3 then Leg(lines[2].account, lines[2].dir, lines[2].amount, currency) else []
  {
    assert lines[..1] == [lines[0]] && lines[..1][..0] == [];
    assert lines[..2][..1] == lines[..1];
    assert Posted(lines[..1], currency) == Leg(lines[0].account, lines[0].dir, lines[0].amount, currency);
    assert Posted(lines[..2], currency) ==
      Posted(lines[..1], currency) + Leg(lines[1].account, lines[1].dir, lines[1].amount, currency);
  }

  function MovementOf(kind: Kind): Movement {
    match kind
    case ChargeKind(amount, fee) => Movement(amount, fee)
    case RefundKind(_, refunded) => Movement(refunded, 0)
    case DisputeKind(amount, fee) => Movement(amount, fee)
    case PayoutKind(amount) => Movement(amount, 0)
    case InvoiceKind(amount) => Movement(amount, 0)
  }

  /** The payload carries its own amount and fee, so no fee need be fetched. */
  lemma {:induction false} PayloadAmounts(kind: Kind, objectId: string, chargeId: string, feeMinor: Option<int>)
    requires !kind.InvoiceKind?
    ensures Amounts(TypeOf(kind), Payload(kind, objectId, chargeId), feeMinor) == Ok(MovementOf(kind))
  {
    if kind.DisputeKind? {
      var refs := Payload(kind, objectId, chargeId).balanceTransactions;
      assert refs[..0] == [];
      assert SumFees(refs) == kind.fee;
    }
  }

  lemma {:induction false} ChargePosted(amount: int, fee: int, currency: string)
    ensures ChargeEntries(amount, fee, currency) == Posted(Lines(ChargeKind(amount, fee)), currency)
  {
    PostedThree(Lines(ChargeKind(amount, fee)), currency);
  }

  lemma {:induction false} RefundPosted(amount: int, refunded: int, currency: string)
    ensures RefundEntries(refunded, currency) == Posted(Lines(RefundKind(amount, refunded)), currency)
  {
    PostedThree(Lines(RefundKind(amount, refunded)), currency);
  }

  lemma {:induction false} DisputePosted(amount: int, fee: int, currency: string)
    ensures DisputeEntries(amount, fee, currency) == Posted(Lines(DisputeKind(amount, fee)), currency)
  {
    PostedThree(Lines(DisputeKind(amount, fee)), currency);
  }

  lemma {:induction false} PayoutPosted(amount: int, currency: string)
    ensures PayoutEntries(amount, currency) == Posted(Lines(PayoutKind(amount)), currency)
  {
    PostedThree(Lines(PayoutKind(amount)), currency);
  }

  lemma {:induction false} LinesPosted(kind: Kind, currency: string)
    requires !kind.InvoiceKind?
    ensures Entries(TypeOf(kind), MovementOf(kind), currency) == Posted(Lines(kind), currency)
  {
    hide Posted, Lines, ChargeEntries, RefundEntries, DisputeEntries, PayoutEntries;
    match kind
    case ChargeKind(amount, fee) => ChargePosted(amount, fee, currency);
    case RefundKind(amount, refunded) => RefundPosted(amount, refunded, currency);
    case DisputeKind(amount, fee) => DisputePosted(amount, fee, currency);
    case PayoutKind(amount) => PayoutPosted(amount, currency);
  }

  lemma {:induction false} LinesDistinct(kind: Kind)
    ensures DistinctListed(Lines(kind))
  {
  }

  /** The mapping of a made payload, whatever fee is supplied from outside. */
  lemma {:induction false} MadeBuilds(kind: Kind, eventId: string, objectId: string, chargeId: string, created: int, feeMinor: Option<int>)
    ensures var e := Make(kind, eventId, objectId, chargeId, created).event;
      && Build(e, feeMinor).Ok? && MoneyObjectId(e) == Some(objectId)
      && (kind.InvoiceKind? ==> Build(e, feeMinor).value == None)
      && (!kind.InvoiceKind? ==>
          && Build(e, feeMinor).value.Some?
          && Build(e, feeMinor).value.value.entries == Entries(TypeOf(kind), MovementOf(kind), Upper("usd")))
  {
    hide Entries, Upper, MovementOf, Amounts;
    if !kind.InvoiceKind? {
      PayloadAmounts(kind, objectId, chargeId, feeMinor);
    }
  }

  /** Each fixture's ground truth is what the mapping of its payload posts, for
      every amount and fee, and whatever fee is supplied from outside. */
  lemma {:induction false} FixtureAgrees(kind: Kind, eventId: string, objectId: string, chargeId: string, created: int, feeMinor: Option<int>)
    ensures var fx := Make(kind, eventId, objectId, chargeId, created);
      && Build(fx.event, feeMinor).Ok?
      && MoneyObjectId(fx.event) == Some(objectId)
      && (kind.InvoiceKind? ==> Build(fx.event, feeMinor).value == None && fx.expectedDelta == map[])
      && (!kind.InvoiceKind? ==>
          && Build(fx.event, feeMinor).value.Some?
          && NonZero(AllBalances(Build(fx.event, feeMinor).value.value.entries)) == fx.expectedDelta)
  {
    hide Build, Entries, Upper, MovementOf, Posted, NonZero, AllBalances, MoneyObjectId, DistinctListed;
    MadeBuilds(kind, eventId, objectId, chargeId, created, feeMinor);
    if !kind.InvoiceKind? {
      LinesDistinct(kind);
      LinesPosted(kind, Upper("usd"));
      PostedNonZero(Lines(kind), Upper("usd"));
    }
  }
}
