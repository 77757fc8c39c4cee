/** What each event posts, said of its payload's own fields and of account balances:
    which types the worker posts at all, whose amount and whose fee it books, and what
    a payload has to carry (stripe_io/mapping.py, worker/handlers.py). */
module Payloads {
  import opened Wrappers
  import opened Sums
  import opened Ledger
  import opened Mapping
  import opened Protocol
  import opened Invariant
  import opened Safety

  // ------------------------------------------------- which types post ----

  /** In every reachable ledger the transactions made from events are of these four
      types, each the type of its own row. */
  lemma {:induction false} LedgerHoldsFourTypes(world: World, s: State, t: Txn)
    requires Reachable(world, s) && t in s.ledger && t.eventId.Some?
    ensures t.eventId.value in s.rows && s.rows[t.eventId.value].payload.etype in {ChargeSucceeded, ChargeRefunded, DisputeCreated, PayoutPaid}
    ensures t.etype == Some(s.rows[t.eventId.value].payload.etype)
  {
    hide Moves, MoveOf, NoMoney;
    ReachableInv(world, s);
    assert TxnFits(world, s, t);
    OnlyFourTypesMove(world.fees, s.rows[t.eventId.value].payload);
    MoveNamesEvent(world.fees, s.rows[t.eventId.value].payload);
  }

  // --------------------------------------------------- what is booked ----

  lemma {:induction false} ChargeBooks(a: Account, gross: int, fee: int, currency: string)
    requires Listed(a)
    ensures Balance(a, ChargeEntries(gross, fee, currency)) ==
      match a
      case StripeBalance => gross - fee
      case ProcessingFees => fee
      case Revenue => gross
      case _ => 0
  {
    hide Balance;
    ThreeLegs(a, StripeBalance, Debit, gross - fee, ProcessingFees, Debit, fee, Revenue, Credit, gross, currency);
  }

  lemma {:induction false} RefundBooks(a: Account, amount: int, currency: string)
    requires Listed(a)
    ensures Balance(a, RefundEntries(amount, currency)) ==
      match a
      case RefundsContra => amount
      case StripeBalance => -amount
      case _ => 0
  {
    hide Balance;
    TwoLegs(a, RefundsContra, StripeBalance, amount, currency);
  }

  lemma {:induction false} DisputeBooks(a: Account, amount: int, fee: int, currency: string)
    requires Listed(a)
    ensures Balance(a, DisputeEntries(amount, fee, currency)) ==
      match a
      case DisputeLosses => amount
      case ProcessingFees => fee
      case StripeBalance => -(amount + fee)
      case _ => 0
  {
    hide Balance;
    ThreeLegs(a, DisputeLosses, Debit, amount, ProcessingFees, Debit, fee, StripeBalance, Credit, amount + fee, currency);
  }

  lemma {:induction false} PayoutBooks(a: Account, amount: int, currency: string)
    requires Listed(a)
    ensures Balance(a, PayoutEntries(amount, currency)) ==
      match a
      case Bank => amount
      case StripeBalance => -amount
      case _ => 0
  {
    hide Balance;
    TwoLegs(a, Bank, StripeBalance, amount, currency);
  }

  /** The header of a transaction built from the event. */
  predicate Heads(t: Txn, e: Event) {
    && t.id == OfEvent(e.id) && t.eventId == Some(e.id) && t.etype == Some(e.etype)
    && e.created == Some(t.occurredAt)
  }

  ghost predicate Builds(e: Event, feeMinor: Option<int>, t: Txn) {
    Build(e, feeMinor) == Ok(Some(t)) && Heads(t, e)
  }

  // ------------------------------------------------------ whose fee ----

  /** The balance transaction a charge payload refers to: its own, or else that of its
      expanded latest charge. */
  predicate ChargeRefers(o: MoneyObject, ref: Option<FeeRef>) {
    if o.balanceTransaction.Some? then ref == o.balanceTransaction
    else if o.latestCharge.Some? && o.latestCharge.value.ChargeObject? then ref == o.latestCharge.value.balanceTransaction
    else ref == None
  }

  /** The fee is the expanded reference's, or else the one fetched. */
  ghost predicate ChargeFeeIs(o: MoneyObject, fetched: Option<int>, fee: int) {
    || ChargeRefers(o, Some(Expanded(fee)))
    || (fetched == Some(fee) && forall own :: !ChargeRefers(o, Some(Expanded(own))))
  }

  /** A charge books gross less fee to the Stripe balance, the fee, and gross revenue,
      whether the fee came with the payload or was fetched; a payment intent the same
      on amount_received. */
  lemma {:induction false} ChargePosts(e: Event, fetched: Option<int>, gross: int, fee: int) returns (t: Txn)
    requires e.data.Some? && e.data.value.currency.Some? && e.created.Some?
    requires || (e.etype.ChargeSucceeded? && e.data.value.amount == Some(gross))
             || (e.etype.PaymentIntentSucceeded? && e.data.value.amountReceived == Some(gross))
    requires ChargeFeeIs(e.data.value, fetched, fee)
    ensures Builds(e, fetched, t)
    ensures Balance(StripeBalance, t.entries) == gross - fee && Balance(ProcessingFees, t.entries) == fee
    ensures Balance(Revenue, t.entries) == gross
    ensures forall a :: Listed(a) && a !in {StripeBalance, ProcessingFees, Revenue} ==> Balance(a, t.entries) == 0
  {
    hide Balance, Upper, MoneyObjectId;
    ChargeFeeRead(e.data.value, fetched, fee);
    t := Build(e, fetched).value.value;
    assert t.entries == ChargeEntries(gross, fee, Upper(e.data.value.currency.value));
    ChargeBooks(StripeBalance, gross, fee, Upper(e.data.value.currency.value));
    ChargeBooks(ProcessingFees, gross, fee, Upper(e.data.value.currency.value));
    ChargeBooks(Revenue, gross, fee, Upper(e.data.value.currency.value));
    forall a | Listed(a) && a !in {StripeBalance, ProcessingFees, Revenue} ensures Balance(a, t.entries) == 0 {
      ChargeBooks(a, gross, fee, Upper(e.data.value.currency.value));
    }
  }

  lemma {:induction false} ChargeFeeRead(o: MoneyObject, fetched: Option<int>, fee: int)
    requires ChargeFeeIs(o, fetched, fee)
    ensures ChargeFee(o, fetched) == Ok(fee)
  {
    if !ChargeRefers(o, Some(Expanded(fee))) {
      if o.balanceTransaction.Some? && o.balanceTransaction.value.Expanded? {
        assert ChargeRefers(o, Some(Expanded(o.balanceTransaction.value.fee)));
      }
      if o.latestCharge.Some? && o.latestCharge.value.ChargeObject? && o.latestCharge.value.balanceTransaction.Some?
         && o.latestCharge.value.balanceTransaction.value.Expanded? {
        assert o.balanceTransaction.None? ==> ChargeRefers(o, Some(Expanded(o.latestCharge.value.balanceTransaction.value.fee)));
      }
    }
  }

  /** Without a fee in the payload the mapping asks for one, naming the bare reference
      if there is one. */
  lemma {:induction false} ChargeAsks(e: Event, ref: Option<FeeRef>)
    requires e.data.Some? && e.data.value.currency.Some?
    requires (e.etype.ChargeSucceeded? && e.data.value.amount.Some?)
      || (e.etype.PaymentIntentSucceeded? && e.data.value.amountReceived.Some?)
    requires ChargeRefers(e.data.value, ref) && (ref.None? || ref.value.Unexpanded?)
    ensures Build(e, None) == Err(MissingFee(if ref.Some? then Some(ref.value.id) else None))
  {
    hide Upper;
  }

  /** Every reference of a dispute is expanded, and there is one. */
  predicate AllExpanded(refs: seq<FeeRef>) {
    refs != [] && forall r :: r in refs ==> r.Expanded?
  }

  function FeeIn(r: FeeRef): int {
    if r.Expanded? then r.fee else 0
  }

  predicate DisputeFeeIs(o: MoneyObject, fetched: Option<int>, fee: int) {
    if AllExpanded(o.balanceTransactions) then fee == Sum(o.balanceTransactions, FeeIn) else fetched == Some(fee)
  }

  lemma {:induction false} SumFeesIs(refs: seq<FeeRef>)
    requires forall r :: r in refs ==> r.Expanded?
    ensures SumFees(refs) == Sum(refs, FeeIn)
  {
    if refs != [] {
      assert refs[|refs| - 1] in refs;
      SumFeesIs(refs[..|refs| - 1]);
    }
  }

  /** A dispute books its amount as lost and the fee, summed over its references when
      all are expanded and otherwise the one fetched, and takes both from Stripe. */
  lemma {:induction false} DisputePosts(e: Event, fetched: Option<int>, amount: int, fee: int) returns (t: Txn)
    requires e.etype.DisputeCreated? && e.data.Some? && e.data.value.currency.Some? && e.created.Some?
    requires e.data.value.amount == Some(amount) && DisputeFeeIs(e.data.value, fetched, fee)
    ensures Builds(e, fetched, t)
    ensures Balance(DisputeLosses, t.entries) == amount && Balance(ProcessingFees, t.entries) == fee
    ensures Balance(StripeBalance, t.entries) == -(amount + fee)
    ensures forall a :: Listed(a) && a !in {DisputeLosses, ProcessingFees, StripeBalance} ==> Balance(a, t.entries) == 0
  {
    hide Balance, Upper, MoneyObjectId;
    if AllExpanded(e.data.value.balanceTransactions) {
      SumFeesIs(e.data.value.balanceTransactions);
    }
    t := Build(e, fetched).value.value;
    var currency := Upper(e.data.value.currency.value);
    assert t.entries == DisputeEntries(amount, fee, currency);
    DisputeBooks(DisputeLosses, amount, fee, currency);
    DisputeBooks(ProcessingFees, amount, fee, currency);
    DisputeBooks(StripeBalance, amount, fee, currency);
    forall a | Listed(a) && a !in {DisputeLosses, ProcessingFees, StripeBalance} ensures Balance(a, t.entries) == 0 {
      DisputeBooks(a, amount, fee, currency);
    }
  }

  /** A dispute with a bare reference, or none, asks; it names the first bare one. */
  lemma {:induction false} DisputeAsks(e: Event, k: nat)
    requires e.etype.DisputeCreated? && e.data.Some? && e.data.value.currency.Some? && e.data.value.amount.Some?
    requires !AllExpanded(e.data.value.balanceTransactions)
    requires k <= |e.data.value.balanceTransactions|
    requires forall j :: 0 <= j < k ==> e.data.value.balanceTransactions[j].Expanded?
    requires k < |e.data.value.balanceTransactions| ==> e.data.value.balanceTransactions[k].Unexpanded?
    ensures Build(e, None) == Err(MissingFee(
      if k < |e.data.value.balanceTransactions| then Some(e.data.value.balanceTransactions[k].id) else None))
  {
    hide Upper;
    FirstIdAt(e.data.value.balanceTransactions, k);
  }

  lemma {:induction false} FirstIdAt(refs: seq<FeeRef>, k: nat)
    requires k <= |refs| && forall j :: 0 <= j < k ==> refs[j].Expanded?
    requires k < |refs| ==> refs[k].Unexpanded?
    ensures FirstId(refs) == if k < |refs| then Some(refs[k].id) else None
  {
    if k > 0 {
      FirstIdAt(refs[1..], k - 1);
    }
  }

  // --------------------------------------------------- whose amount ----

  /** A refund books the newest refund's own amount, never the cumulative one, which
      stands in only where the list lacks it. */
  lemma {:induction false} RefundPosts(e: Event, fetched: Option<int>, amount: int) returns (t: Txn)
    requires e.etype.ChargeRefunded? && e.data.Some? && e.data.value.currency.Some? && e.created.Some?
    requires if e.data.value.refunds != [] && e.data.value.refunds[0].amount.Some?
      then e.data.value.refunds[0].amount == Some(amount)
      else e.data.value.amountRefunded == Some(amount)
    ensures Builds(e, fetched, t)
    ensures Balance(RefundsContra, t.entries) == amount && Balance(StripeBalance, t.entries) == -amount
    ensures forall a :: Listed(a) && a !in {RefundsContra, StripeBalance} ==> Balance(a, t.entries) == 0
  {
    hide Balance, Upper, MoneyObjectId;
    t := Build(e, fetched).value.value;
    var currency := Upper(e.data.value.currency.value);
    assert t.entries == RefundEntries(amount, currency);
    RefundBooks(RefundsContra, amount, currency);
    RefundBooks(StripeBalance, amount, currency);
    forall a | Listed(a) && a !in {RefundsContra, StripeBalance} ensures Balance(a, t.entries) == 0 {
      RefundBooks(a, amount, currency);
    }
  }

  lemma {:induction false} PayoutPosts(e: Event, fetched: Option<int>, amount: int) returns (t: Txn)
    requires e.etype.PayoutPaid? && e.data.Some? && e.data.value.currency.Some? && e.created.Some?
    requires e.data.value.amount == Some(amount)
    ensures Builds(e, fetched, t)
    ensures Balance(Bank, t.entries) == amount && Balance(StripeBalance, t.entries) == -amount
    ensures forall a :: Listed(a) && a !in {Bank, StripeBalance} ==> Balance(a, t.entries) == 0
  {
    hide Balance, Upper, MoneyObjectId;
    t := Build(e, fetched).value.value;
    var currency := Upper(e.data.value.currency.value);
    assert t.entries == PayoutEntries(amount, currency);
    PayoutBooks(Bank, amount, currency);
    PayoutBooks(StripeBalance, amount, currency);
    forall a | Listed(a) && a !in {Bank, StripeBalance} ensures Balance(a, t.entries) == 0 {
      PayoutBooks(a, amount, currency);
    }
  }

  /** The key a payload must carry to be mapped, apart from the fee. */
  predicate Carries(e: Event) {
    && e.data.Some?
    && var o := e.data.value;
    match e.etype
    case InvoicePaymentFailed => true
    case OtherType(_) => false
    case ChargeSucceeded | DisputeCreated | PayoutPaid => o.currency.Some? && e.created.Some? && o.amount.Some?
    case PaymentIntentSucceeded => o.currency.Some? && e.created.Some? && o.amountReceived.Some?
    case ChargeRefunded =>
      o.currency.Some? && e.created.Some? && ((o.refunds != [] && o.refunds[0].amount.Some?) || o.amountRefunded.Some?)
  }

  /** With the fee supplied, an event is mapped exactly when its payload is whole, and
      to no transaction only for the invoice. */
  lemma {:induction false} BuildsExactlyWhole(e: Event, fee: int)
    ensures Build(e, Some(fee)).Ok? <==> Carries(e)
    ensures Carries(e) ==> (Build(e, Some(fee)).value.None? <==> e.etype.InvoicePaymentFailed?)
    ensures e.data.Some? && e.etype.OtherType? ==> Build(e, Some(fee)) == Err(UnhandledType)
  {
    hide Upper, SumFees, MoneyObjectId, Entries;
  }

  /** What is fetched is used, and only where the payload lacks it: the transaction the
      worker posts for a charge. */
  lemma {:induction false} ChargeMoves(fees: Event -> int, e: Event, gross: int)
    requires e.etype.ChargeSucceeded? && Carries(e) && e.data.value.amount == Some(gross)
    ensures Moves(fees, e)
    ensures var fee := Balance(ProcessingFees, MoveOf(fees, e).entries);
      && Balance(StripeBalance, MoveOf(fees, e).entries) == gross - fee
      && Balance(Revenue, MoveOf(fees, e).entries) == gross
      && (ChargeRefers(e.data.value, Some(Expanded(fee)))
          || (fee == fees(e) && forall own :: !ChargeRefers(e.data.value, Some(Expanded(own)))))
  {
    hide Balance, Upper, Build, Entries;
    var o := e.data.value;
    if own :| ChargeRefers(o, Some(Expanded(own))) {
      var t := ChargePosts(e, None, gross, own);
    } else {
      var ref := if o.balanceTransaction.Some? then o.balanceTransaction
        else if o.latestCharge.Some? && o.latestCharge.value.ChargeObject? then o.latestCharge.value.balanceTransaction
        else None;
      assert ref.Some? && ref.value.Expanded? ==> ChargeRefers(o, Some(Expanded(ref.value.fee)));
      ChargeAsks(e, ref);
      var t := ChargePosts(e, Some(fees(e)), gross, fees(e));
    }
  }

  lemma {:induction false} DisputeMoves(fees: Event -> int, e: Event, amount: int)
    requires e.etype.DisputeCreated? && Carries(e) && e.data.value.amount == Some(amount)
    ensures Moves(fees, e)
    ensures var fee := Balance(ProcessingFees, MoveOf(fees, e).entries);
      && fee == (if AllExpanded(e.data.value.balanceTransactions) then Sum(e.data.value.balanceTransactions, FeeIn) else fees(e))
      && Balance(DisputeLosses, MoveOf(fees, e).entries) == amount
      && Balance(StripeBalance, MoveOf(fees, e).entries) == -(amount + fee)
  {
    hide Balance, Upper, Build, Entries;
    var refs := e.data.value.balanceTransactions;
    if AllExpanded(refs) {
      var t := DisputePosts(e, None, amount, Sum(refs, FeeIn));
    } else {
      var k := FirstBare(refs);
      DisputeAsks(e, k);
      var t := DisputePosts(e, Some(fees(e)), amount, fees(e));
    }
  }

  lemma {:induction false} FirstBare(refs: seq<FeeRef>) returns (k: nat)
    ensures k <= |refs| && (forall j :: 0 <= j < k ==> refs[j].Expanded?) && (k < |refs| ==> refs[k].Unexpanded?)
  {
    k := 0;
    while k < |refs| && refs[k].Expanded?
      invariant k <= |refs| && forall j :: 0 <= j < k ==> refs[j].Expanded?
    {
      k := k + 1;
    }
  }

  // ----------------------------------------------------- which object ----

  /** Two partial refunds of one charge move money as two objects; every other event
      as the object it carries, and a refund without a list as its charge. */
  lemma {:induction false} MovedObject(e: Event, o: MoneyObject)
    requires e.data == Some(o)
    ensures e.etype.ChargeRefunded? && o.refunds != [] && o.refunds[0].id.Some? ==> MoneyObjectId(e) == o.refunds[0].id
    ensures !e.etype.ChargeRefunded? || o.refunds == [] || o.refunds[0].id.None? ==> MoneyObjectId(e) == o.id
    ensures MoneyObjectId(e.(data := None)) == None
  {
  }

  // -------------------------------------------------------- currency ----

  predicate IsLetter(c: char, lower: char, upper: char) {
    c == lower || c == upper
  }

  /** Only the three letters of the chart's currency, in either case, become it. */
  lemma {:induction false} UpperIsUsd(s: string)
    ensures Upper(s) == CHART_CURRENCY <==>
      |s| == 3 && IsLetter(s[0], 'u', 'U') && IsLetter(s[1], 's', 'S') && IsLetter(s[2], 'd', 'D')
  {
    UpperAt(s);
  }

  lemma {:induction false} UpperAt(s: string)
    ensures |Upper(s)| == |s| && forall i :: 0 <= i < |s| ==> Upper(s)[i] == UpperChar(s[i])
  {
    if s != "" {
      UpperAt(s[1..]);
    }
  }

  /** An event in another currency never commits, whatever its type and amounts. */
  lemma {:induction false} OtherCurrencyNeverCommits(e: Event, feeMinor: Option<int>)
    requires Build(e, feeMinor).Ok? && Build(e, feeMinor).value.Some?
    requires Commits(Build(e, feeMinor).value.value.entries)
    ensures e.data.Some? && e.data.value.currency.Some?
    ensures var s := e.data.value.currency.value;
      |s| == 3 && IsLetter(s[0], 'u', 'U') && IsLetter(s[1], 's', 'S') && IsLetter(s[2], 'd', 'D')
  {
    hide Commits, Upper, Entries, Amounts;
    CommitsIffSound(e, feeMinor);
    UpperIsUsd(e.data.value.currency.value);
  }
}
