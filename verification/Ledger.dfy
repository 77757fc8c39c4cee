/** The double-entry ledger: chart of accounts, entries, derived balances, and
    what the database lets a transaction commit. */
module Ledger {
  import opened Wrappers
  import opened Sums

  datatype Direction = Debit | Credit

  // The seven accounts of migration 002, all in USD; any other name is unlisted.
  datatype Account =
    | StripeBalance | Bank | ProcessingFees | DisputeLosses | RefundsContra
    | Revenue | CustomerLiability
    | Unlisted(name: string)

  datatype Entry = Entry(account: Account, dir: Direction, amount: int, currency: string)

  const CHART_CURRENCY := "USD"

  function Normal(a: Account): Option<Direction> {
    match a
    case Revenue | CustomerLiability => Some(Credit)
    case Unlisted(_) => None
    case _ => Some(Debit)
  }

  predicate Listed(a: Account) {
    !a.Unlisted?
  }

  /** What one entry does to account a, in the sign convention of account_balances. */
  function Signed(a: Account, e: Entry): int {
    if e.account != a then 0 else if Some(e.dir) == Normal(a) then e.amount else -e.amount
  }

  /** The derived balance of an account: there is no stored one. */
  function Balance(a: Account, entries: seq<Entry>): int {
    if entries == [] then 0
    else Balance(a, entries[..|entries| - 1]) + Signed(a, entries[|entries| - 1])
  }

  function NetOf(e: Entry): int {
    if e.dir == Debit then e.amount else -e.amount
  }

  /** Debits minus credits in one currency. */
  function Net(currency: string, entries: seq<Entry>): int {
    if entries == [] then 0
    else
      var e := entries[|entries| - 1];
      Net(currency, entries[..|entries| - 1]) + if e.currency == currency then NetOf(e) else 0
  }

  /** The deferred balance trigger. */
  ghost predicate BalancedPerCurrency(entries: seq<Entry>) {
    forall c :: Net(c, entries) == 0
  }

  /** What the row checks, the currency foreign key and the two deferred
      triggers accept at COMMIT. */
  ghost predicate Commits(entries: seq<Entry>) {
    && |entries| >= 2
    && (forall e :: e in entries ==> Listed(e.account) && e.amount > 0 && e.currency == CHART_CURRENCY)
    && BalancedPerCurrency(entries)
  }

  // ------------------------------------------------ the global invariant --

  type Balances = map<Account, int>

  function Get(bal: Balances, a: Account): int {
    if a in bal then bal[a] else 0
  }

  function NonZero(bal: Balances): Balances {
    map a | a in bal && bal[a] != 0 :: bal[a]
  }

  /** The account_balances view: one row per account of the chart. */
  function AllBalances(entries: seq<Entry>): (bal: Balances)
    ensures forall a :: a in bal <==> Listed(a)
    ensures forall a :: a in bal ==> bal[a] == Balance(a, entries)
  {
    map a | a in {StripeBalance, Bank, ProcessingFees, DisputeLosses, RefundsContra, Revenue, CustomerLiability}
    :: Balance(a, entries)
  }

  datatype CurrencyCheck = CurrencyCheck(currency: string, sumDebitNormal: int, sumCreditNormal: int) {
    function Difference(): int {
      sumDebitNormal - sumCreditNormal
    }

    predicate Ok() {
      Difference() == 0
    }
  }

  /** One row per currency of the chart, and the chart holds one currency. */
  function InvariantCheck(bal: Balances): CurrencyCheck {
    CurrencyCheck(
      CHART_CURRENCY,
      Get(bal, StripeBalance) + Get(bal, Bank) + Get(bal, ProcessingFees)
        + Get(bal, DisputeLosses) + Get(bal, RefundsContra),
      Get(bal, Revenue) + Get(bal, CustomerLiability))
  }

  lemma {:induction false} BalanceConcat(a: Account, xs: seq<Entry>, ys: seq<Entry>)
    ensures Balance(a, xs + ys) == Balance(a, xs) + Balance(a, ys)
  {
    if ys == [] {
      assert xs + ys == xs;
    } else {
      assert (xs + ys)[..|xs + ys| - 1] == xs + ys[..|ys| - 1];
      BalanceConcat(a, xs, ys[..|ys| - 1]);
    }
  }

  ghost predicate OnChart(entries: seq<Entry>) {
    forall e :: e in entries ==> Listed(e.account) && e.currency == CHART_CURRENCY
  }

  function Difference(entries: seq<Entry>): int {
    InvariantCheck(AllBalances(entries)).Difference()
  }

  lemma {:induction false} BalanceLast(a: Account, rest: seq<Entry>, e: Entry)
    ensures Balance(a, rest + [e]) == Balance(a, rest) + Signed(a, e)
  {
    assert (rest + [e])[..|rest|] == rest;
  }

  lemma {:induction false} DifferenceIs(entries: seq<Entry>)
    ensures Difference(entries) ==
      Balance(StripeBalance, entries) + Balance(Bank, entries) + Balance(ProcessingFees, entries)
      + Balance(DisputeLosses, entries) + Balance(RefundsContra, entries)
      - Balance(Revenue, entries) - Balance(CustomerLiability, entries)
  {
  }

  lemma {:induction false} DifferenceLast(rest: seq<Entry>, e: Entry)
    requires Listed(e.account)
    ensures Difference(rest + [e]) == Difference(rest) + NetOf(e)
  {
    hide Balance, Difference;
    BalanceLast(StripeBalance, rest, e);
    BalanceLast(Bank, rest, e);
    BalanceLast(ProcessingFees, rest, e);
    BalanceLast(DisputeLosses, rest, e);
    BalanceLast(RefundsContra, rest, e);
    BalanceLast(Revenue, rest, e);
    BalanceLast(CustomerLiability, rest, e);
    DifferenceIs(rest);
    DifferenceIs(rest + [e]);
  }

  /** The invariant's difference is the ledger's debits minus its credits: the
      per-account signs cancel out. */
  lemma {:induction false} GapIsNet(entries: seq<Entry>)
    requires OnChart(entries)
    ensures Difference(entries) == Net(CHART_CURRENCY, entries)
  {
    if entries != [] {
      var rest, e := entries[..|entries| - 1], entries[|entries| - 1];
      assert entries == rest + [e];
      GapIsNet(rest);
      DifferenceLast(rest, e);
    }
  }

  // -------------------------------------------------------- transactions --

  datatype EventType =
    | ChargeSucceeded | PaymentIntentSucceeded | ChargeRefunded | DisputeCreated
    | PayoutPaid | InvoicePaymentFailed
    | OtherType(name: string)

  // uuid5 of the event id is taken as injective, and never equal to an id minted otherwise.
  datatype TxnId = OfEvent(eventId: string) | Minted(n: nat)

  datatype Txn = Txn(
    id: TxnId, eventId: Option<string>, objectId: Option<string>, etype: Option<EventType>,
    entries: seq<Entry>, occurredAt: int)

  function NetChange(a: Account, txns: seq<Txn>): int {
    Sum(txns, (t: Txn) => Balance(a, t.entries))
  }

  function AllEntries(txns: seq<Txn>): seq<Entry> {
    if txns == [] then [] else AllEntries(txns[..|txns| - 1]) + txns[|txns| - 1].entries
  }

  lemma {:induction false} BalanceOfLedger(a: Account, txns: seq<Txn>)
    ensures Balance(a, AllEntries(txns)) == NetChange(a, txns)
  {
    if txns != [] {
      BalanceOfLedger(a, txns[..|txns| - 1]);
      BalanceConcat(a, AllEntries(txns[..|txns| - 1]), txns[|txns| - 1].entries);
    }
  }

  /** Money is conserved by any ledger of committed transactions, whatever they
      say and however many there are. */
  lemma {:induction false} Conservation(txns: seq<Txn>)
    requires forall t :: t in txns ==> Commits(t.entries)
    ensures OnChart(AllEntries(txns))
    ensures InvariantCheck(AllBalances(AllEntries(txns))).Ok()
  {
    EntriesBalance(txns);
    GapIsNet(AllEntries(txns));
  }

  lemma {:induction false} EntriesBalance(txns: seq<Txn>)
    requires forall t :: t in txns ==> Commits(t.entries)
    ensures OnChart(AllEntries(txns))
    ensures BalancedPerCurrency(AllEntries(txns))
  {
    if txns != [] {
      var before, last := txns[..|txns| - 1], txns[|txns| - 1];
      assert last in txns && forall t :: t in before ==> t in txns;
      EntriesBalance(before);
      forall c ensures Net(c, AllEntries(txns)) == 0 {
        NetConcat(c, AllEntries(before), last.entries);
      }
    }
  }

  lemma {:induction false} NetConcat(c: string, xs: seq<Entry>, ys: seq<Entry>)
    ensures Net(c, xs + ys) == Net(c, xs) + Net(c, ys)
  {
    if ys == [] {
      assert xs + ys == xs;
    } else {
      assert (xs + ys)[..|xs + ys| - 1] == xs + ys[..|ys| - 1];
      NetConcat(c, xs, ys[..|ys| - 1]);
    }
  }
}
