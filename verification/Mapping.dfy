/** Stripe events and the balanced transactions they map to
    (stripe_io/mapping.py). A payload is the part of the JSON the mapping reads;
    a key the payload lacks is None, and reading it is the source's KeyError. */
module Mapping {
  import opened Wrappers
  import opened Ledger

  // A balance transaction reference: an expanded object, or its bare id.
  datatype FeeRef = Expanded(fee: int) | Unexpanded(id: string)

  // A payment intent's latest_charge: a bare id, or the expanded charge.
  datatype LatestCharge = ChargeId(id: string) | ChargeObject(balanceTransaction: Option<FeeRef>)

  datatype Refund = Refund(id: Option<string>, amount: Option<int>)

  datatype MoneyObject = MoneyObject(
    id: Option<string>,
    currency: Option<string>,
    amount: Option<int>,
    amountReceived: Option<int>,
    amountRefunded: Option<int>,
    balanceTransaction: Option<FeeRef>,
    latestCharge: Option<LatestCharge>,
    balanceTransactions: seq<FeeRef>,
    refunds: seq<Refund>)  // newest first; empty when the list is absent

  datatype Event = Event(id: string, etype: EventType, created: Option<int>, data: Option<MoneyObject>)

  datatype MapError = KeyMissing | UnhandledType | MissingFee(balanceTransactionId: Option<string>)

  /** The id of the object that moved money, not merely data.object.id. */
  function MoneyObjectId(e: Event): Option<string> {
    if e.data.None? then None
    else
      var obj := e.data.value;
      if e.etype.ChargeRefunded? && obj.refunds != [] && obj.refunds[0].id.Some? then obj.refunds[0].id
      else obj.id
  }

  function ChargeFee(obj: MoneyObject, feeMinor: Option<int>): Result<int, MapError> {
    var ref :=
      if obj.balanceTransaction.None? && obj.latestCharge.Some? && obj.latestCharge.value.ChargeObject?
      then obj.latestCharge.value.balanceTransaction
      else obj.balanceTransaction;
    match ref
    case Some(Expanded(fee)) => Ok(fee)
    case _ =>
      if feeMinor.Some? then Ok(feeMinor.value)
      else Err(MissingFee(if ref.Some? && ref.value.Unexpanded? then Some(ref.value.id) else None))
  }

  function SumFees(refs: seq<FeeRef>): int
    requires forall r :: r in refs ==> r.Expanded?
  {
    if refs == [] then 0 else SumFees(refs[..|refs| - 1]) + refs[|refs| - 1].fee
  }

  function FirstId(refs: seq<FeeRef>): Option<string> {
    if refs == [] then None
    else if refs[0].Unexpanded? then Some(refs[0].id)
    else FirstId(refs[1..])
  }

  function DisputeFee(obj: MoneyObject, feeMinor: Option<int>): Result<int, MapError> {
    var refs := obj.balanceTransactions;
    if refs != [] && forall r :: r in refs ==> r.Expanded? then Ok(SumFees(refs))
    else if feeMinor.Some? then Ok(feeMinor.value)
    else Err(MissingFee(FirstId(refs)))
  }

  /** One leg; a zero amount is no leg, because the database requires amount > 0. */
  function Leg(a: Account, dir: Direction, amount: int, currency: string): seq<Entry> {
    if amount != 0 then [Entry(a, dir, amount, currency)] else []
  }

  function ChargeEntries(gross: int, fee: int, currency: string): seq<Entry> {
    Leg(StripeBalance, Debit, gross - fee, currency)
    + Leg(ProcessingFees, Debit, fee, currency)
    + Leg(Revenue, Credit, gross, currency)
  }

  function RefundEntries(amount: int, currency: string): seq<Entry> {
    Leg(RefundsContra, Debit, amount, currency) + Leg(StripeBalance, Credit, amount, currency)
  }

  function DisputeEntries(amount: int, fee: int, currency: string): seq<Entry> {
    Leg(DisputeLosses, Debit, amount, currency)
    + Leg(ProcessingFees, Debit, fee, currency)
    + Leg(StripeBalance, Credit, amount + fee, currency)
  }

  function PayoutEntries(amount: int, currency: string): seq<Entry> {
    Leg(Bank, Debit, amount, currency) + Leg(StripeBalance, Credit, amount, currency)
  }

  function UpperChar(c: char): char {
    if 'a' <= c <= 'z' then (c as int - 32) as char else c
  }

  function Upper(s: string): string {
    if s == "" then "" else [UpperChar(s[0])] + Upper(s[1..])
  }

  /** What each event type reads: its amount and, where one applies, its fee. */
  datatype Movement = Movement(amount: int, fee: int)

  function Amounts(etype: EventType, obj: MoneyObject, feeMinor: Option<int>): Result<Movement, MapError> {
    match etype
    case ChargeSucceeded | PaymentIntentSucceeded =>
      var gross := if etype.PaymentIntentSucceeded? then obj.amountReceived else obj.amount;
      if gross.None? then Err(KeyMissing)
      else (
        match ChargeFee(obj, feeMinor)
        case Err(error) => Err(error)
        case Ok(fee) => Ok(Movement(gross.value, fee)))
    case ChargeRefunded =>
      var amount := if obj.refunds != [] && obj.refunds[0].amount.Some? then obj.refunds[0].amount
                    else obj.amountRefunded;
      if amount.None? then Err(KeyMissing) else Ok(Movement(amount.value, 0))
    case DisputeCreated =>
      if obj.amount.None? then Err(KeyMissing)
      else (
        match DisputeFee(obj, feeMinor)
        case Err(error) => Err(error)
        case Ok(fee) => Ok(Movement(obj.amount.value, fee)))
    case PayoutPaid =>
      if obj.amount.None? then Err(KeyMissing) else Ok(Movement(obj.amount.value, 0))
    case _ => Err(UnhandledType)
  }

  function Entries(etype: EventType, m: Movement, currency: string): seq<Entry> {
    match etype
    case ChargeSucceeded | PaymentIntentSucceeded => ChargeEntries(m.amount, m.fee, currency)
    case ChargeRefunded => RefundEntries(m.amount, currency)
    case DisputeCreated => DisputeEntries(m.amount, m.fee, currency)
    case PayoutPaid => PayoutEntries(m.amount, currency)
    case _ => []
  }

  predicate Mapped(etype: EventType) {
    etype in {ChargeSucceeded, PaymentIntentSucceeded, ChargeRefunded, DisputeCreated, PayoutPaid}
  }

  /** None only for invoice.payment_failed, which moves no money. */
  function Build(e: Event, feeMinor: Option<int>): Result<Option<Txn>, MapError> {
    if e.data.None? then Err(KeyMissing)
    else if e.etype.InvoicePaymentFailed? then Ok(None)
    else if !Mapped(e.etype) then Err(UnhandledType)
    else
      var obj := e.data.value;
      if obj.currency.None? then Err(KeyMissing)
      else
        match Amounts(e.etype, obj, feeMinor)
        case Err(error) => Err(error)
        case Ok(m) =>
          if e.created.None? then Err(KeyMissing)
          else Ok(Some(Txn(
            OfEvent(e.id), Some(e.id), MoneyObjectId(e), Some(e.etype),
            Entries(e.etype, m, Upper(obj.currency.value)), e.created.value)))
  }

  /** The amounts the ledger accepts, per event type. */
  predicate Sound(etype: EventType, m: Movement) {
    match etype
    case ChargeSucceeded | PaymentIntentSucceeded => m.amount > 0 && 0 <= m.fee <= m.amount
    case DisputeCreated => m.amount >= 0 && m.fee >= 0 && m.amount + m.fee > 0
    case _ => m.amount > 0
  }

  lemma {:induction false} LegNet(c: string, a: Account, dir: Direction, amount: int, currency: string)
    ensures Net(c, Leg(a, dir, amount, currency)) ==
      if c != currency then 0 else if dir == Debit then amount else -amount
  {
    if amount != 0 {
      assert Leg(a, dir, amount, currency)[..0] == [];
    }
  }

  lemma {:induction false} LegBalance(a: Account, b: Account, dir: Direction, amount: int, currency: string)
    requires Listed(a)
    ensures Balance(a, Leg(b, dir, amount, currency)) ==
      if a != b then 0 else if Some(dir) == Normal(a) then amount else -amount
  {
    if amount != 0 {
      assert Leg(b, dir, amount, currency)[..0] == [];
    }
  }

  lemma {:induction false} TwoLegs(a: Account, b: Account, c: Account, x: int, currency: string)
    requires Listed(a)
    ensures Balance(a, Leg(b, Debit, x, currency) + Leg(c, Credit, x, currency)) ==
      Balance(a, Leg(b, Debit, x, currency)) + Balance(a, Leg(c, Credit, x, currency))
    ensures Balance(a, Leg(b, Debit, x, currency)) == if a != b then 0 else if Normal(a) == Some(Debit) then x else -x
    ensures Balance(a, Leg(c, Credit, x, currency)) == if a != c then 0 else if Normal(a) == Some(Credit) then x else -x
  {
    BalanceConcat(a, Leg(b, Debit, x, currency), Leg(c, Credit, x, currency));
    LegBalance(a, b, Debit, x, currency);
    LegBalance(a, c, Credit, x, currency);
  }

  lemma {:induction false} ThreeLegs(
      a: Account, b: Account, db: Direction, x: int, c: Account, dc: Direction, y: int,
      d: Account, dd: Direction, z: int, currency: string)
    requires Listed(a)
    ensures Balance(a, Leg(b, db, x, currency) + Leg(c, dc, y, currency) + Leg(d, dd, z, currency)) ==
      Balance(a, Leg(b, db, x, currency)) + Balance(a, Leg(c, dc, y, currency)) + Balance(a, Leg(d, dd, z, currency))
    ensures Balance(a, Leg(b, db, x, currency)) == if a != b then 0 else if Normal(a) == Some(db) then x else -x
    ensures Balance(a, Leg(c, dc, y, currency)) == if a != c then 0 else if Normal(a) == Some(dc) then y else -y
    ensures Balance(a, Leg(d, dd, z, currency)) == if a != d then 0 else if Normal(a) == Some(dd) then z else -z
  {
    BalanceConcat(a, Leg(b, db, x, currency), Leg(c, dc, y, currency));
    BalanceConcat(a, Leg(b, db, x, currency) + Leg(c, dc, y, currency), Leg(d, dd, z, currency));
    LegBalance(a, b, db, x, currency);
    LegBalance(a, c, dc, y, currency);
    LegBalance(a, d, dd, z, currency);
  }

  lemma {:induction false} TwoLegsNet(c: string, currency: string, a1: Account, a2: Account, x: int)
    ensures Net(c, Leg(a1, Debit, x, currency) + Leg(a2, Credit, x, currency)) == 0
  {
    LegNet(c, a1, Debit, x, currency);
    LegNet(c, a2, Credit, x, currency);
    NetConcat(c, Leg(a1, Debit, x, currency), Leg(a2, Credit, x, currency));
  }

  lemma {:induction false} ThreeLegsNet(c: string, currency: string, a1: Account, x1: int, a2: Account, x2: int, a3: Account, x3: int)
    requires x1 + x2 == x3
    ensures Net(c, Leg(a1, Debit, x1, currency) + Leg(a2, Debit, x2, currency) + Leg(a3, Credit, x3, currency)) == 0
  {
    LegNet(c, a1, Debit, x1, currency);
    LegNet(c, a2, Debit, x2, currency);
    LegNet(c, a3, Credit, x3, currency);
    var two := Leg(a1, Debit, x1, currency) + Leg(a2, Debit, x2, currency);
    NetConcat(c, Leg(a1, Debit, x1, currency), Leg(a2, Debit, x2, currency));
    NetConcat(c, two, Leg(a3, Credit, x3, currency));
  }

  /** Every mapped transaction balances in its own currency, for any amounts. */
  lemma {:induction false} EntriesBalanceOut(etype: EventType, m: Movement, currency: string)
    ensures BalancedPerCurrency(Entries(etype, m, currency))
  {
    forall c ensures Net(c, Entries(etype, m, currency)) == 0 {
      match etype
      case ChargeSucceeded | PaymentIntentSucceeded =>
        ThreeLegsNet(c, currency, StripeBalance, m.amount - m.fee, ProcessingFees, m.fee, Revenue, m.amount);
      case ChargeRefunded =>
        TwoLegsNet(c, currency, RefundsContra, StripeBalance, m.amount);
      case DisputeCreated =>
        ThreeLegsNet(c, currency, DisputeLosses, m.amount, ProcessingFees, m.fee, StripeBalance, m.amount + m.fee);
      case PayoutPaid =>
        TwoLegsNet(c, currency, Bank, StripeBalance, m.amount);
      case _ =>
    }
  }

  lemma {:induction false} ChargeCommits(m: Movement, currency: string)
    ensures Commits(ChargeEntries(m.amount, m.fee, currency)) <==>
      m.amount > 0 && 0 <= m.fee <= m.amount && currency == CHART_CURRENCY
  {
    hide BalancedPerCurrency;
    var es := ChargeEntries(m.amount, m.fee, currency);
    EntriesBalanceOut(ChargeSucceeded, m, currency);
    if Commits(es) {
      assert es[0] in es && es[1] in es && es[|es| - 1] in es;
    }
  }

  lemma {:induction false} DisputeCommits(m: Movement, currency: string)
    ensures Commits(DisputeEntries(m.amount, m.fee, currency)) <==>
      m.amount >= 0 && m.fee >= 0 && m.amount + m.fee > 0 && currency == CHART_CURRENCY
  {
    hide BalancedPerCurrency;
    var es := DisputeEntries(m.amount, m.fee, currency);
    EntriesBalanceOut(DisputeCreated, m, currency);
    if Commits(es) {
      assert es[0] in es && es[1] in es && es[|es| - 1] in es;
    }
  }

  lemma {:induction false} TwoLegsCommit(etype: EventType, m: Movement, currency: string)
    requires etype == ChargeRefunded || etype == PayoutPaid
    ensures Commits(Entries(etype, m, currency)) <==> m.amount > 0 && currency == CHART_CURRENCY
  {
    hide BalancedPerCurrency;
    var es := Entries(etype, m, currency);
    EntriesBalanceOut(etype, m, currency);
    if Commits(es) {
      assert es[0] in es;
    }
  }

  lemma {:induction false} EntriesCommit(etype: EventType, m: Movement, currency: string)
    requires Mapped(etype)
    ensures Commits(Entries(etype, m, currency)) <==> Sound(etype, m) && currency == CHART_CURRENCY
  {
    hide Commits, ChargeEntries, DisputeEntries;
    match etype
    case ChargeSucceeded | PaymentIntentSucceeded => ChargeCommits(m, currency);
    case DisputeCreated => DisputeCommits(m, currency);
    case _ => TwoLegsCommit(etype, m, currency);
  }

  /** The database commits a mapped transaction exactly when its amounts are
      sound and it is in the chart's currency. */
  lemma {:induction false} CommitsIffSound(e: Event, feeMinor: Option<int>)
    requires Build(e, feeMinor).Ok? && Build(e, feeMinor).value.Some?
    ensures Commits(Build(e, feeMinor).value.value.entries) <==>
      && Sound(e.etype, Amounts(e.etype, e.data.value, feeMinor).value)
      && Upper(e.data.value.currency.value) == CHART_CURRENCY
  {
    hide Commits, Entries, Sound, Amounts, Upper, MoneyObjectId;
    EntriesCommit(e.etype, Amounts(e.etype, e.data.value, feeMinor).value, Upper(e.data.value.currency.value));
  }
}
