/** How far a ledger is from what its events come to, at any moment of any run, and
    exactly when it is not short at all. */
module Shortfall {
  import opened Wrappers
  import opened Sums
  import opened Ledger
  import opened Mapping
  import opened Protocol
  import opened Invariant
  import opened Safety
  import opened Convergence

  predicate OwnPosted(fees: Event -> int, ledger: seq<Txn>, e: Event) {
    Moves(fees, e) && MoveOf(fees, e) in ledger
  }

  /** The events whose own transaction is, or is not, in the ledger. */
  function Picked(fees: Event -> int, ledger: seq<Txn>, events: seq<Event>, posted: bool): (r: seq<Event>)
    ensures forall e :: e in r <==> e in events && OwnPosted(fees, ledger, e) == posted
  {
    if events == [] then []
    else
      var earlier, e := Picked(fees, ledger, events[..|events| - 1], posted), events[|events| - 1];
      assert events == events[..|events| - 1] + [e];
      if OwnPosted(fees, ledger, e) == posted then earlier + [e] else earlier
  }

  /** The money movements received whose transaction the ledger lacks. */
  function Missing(fees: Event -> int, s0: State, s1: State): seq<Event>
    requires s0.received <= s1.received
  {
    Picked(fees, s1.ledger, MoneyFirsts(fees, Since(s0, s1)), false)
  }

  /** What a list of movements would add to an account. */
  function Lacks(fees: Event -> int, a: Account, events: seq<Event>): int {
    Sum(events, (e: Event) => Effect(fees, a, e))
  }

  lemma {:induction false} PickedDistinct(fees: Event -> int, ledger: seq<Txn>, events: seq<Event>, posted: bool)
    requires Distinct(events, EventKey)
    ensures Distinct(Picked(fees, ledger, events, posted), EventKey)
  {
    if events != [] {
      var n := |events| - 1;
      PickedDistinct(fees, ledger, events[..n], posted);
      forall e | e in Picked(fees, ledger, events[..n], posted) ensures EventKey(e) != EventKey(events[n]) {
        var i :| 0 <= i < n && events[i] == e;
      }
    }
  }

  lemma {:induction false} PickedSums(fees: Event -> int, ledger: seq<Txn>, events: seq<Event>, f: Event -> int)
    ensures Sum(events, f) == Sum(Picked(fees, ledger, events, true), f) + Sum(Picked(fees, ledger, events, false), f)
  {
    if events != [] {
      var rest, e := events[..|events| - 1], events[|events| - 1];
      PickedSums(fees, ledger, rest, f);
      SumLast(Picked(fees, ledger, rest, OwnPosted(fees, ledger, e)), e, f);
    }
  }

  /** A money first in the ledger was appended by the stretch. */
  lemma {:induction false} PostedIsAppended(world: World, s0: State, s1: State, f: Event)
    requires Inv(world, s0) && Stretch(s0, s1)
    requires f in MoneyFirsts(world.fees, Since(s0, s1)) && OwnPosted(world.fees, s1.ledger, f)
    ensures MoveOf(world.fees, f) in EventTxns(Appended(s0, s1)) && TxnKey(MoveOf(world.fees, f)) == EventKey(f)
  {
    assert f.id !in s0.rows;
    MoveNamesEvent(world.fees, f);
    OldTxnsOldRows(world, s0);
    assert s1.ledger == s0.ledger + Appended(s0, s1);
  }

  lemma {:induction false} PostedSum(world: World, s0: State, s1: State, a: Account)
    requires Inv(world, s0) && Inv(world, s1) && Stretch(s0, s1)
    ensures NetChange(a, EventTxns(Appended(s0, s1))) ==
      Sum(Picked(world.fees, s1.ledger, MoneyFirsts(world.fees, Since(s0, s1)), true), (e: Event) => Effect(world.fees, a, e))
  {
    var txns, money := EventTxns(Appended(s0, s1)), MoneyFirsts(world.fees, Since(s0, s1));
    var posted := Picked(world.fees, s1.ledger, money, true);
    AppendedDistinct(world, s0, s1);
    FirstsApart(Since(s0, s1));
    MoneyDistinct(world.fees, Firsts(Since(s0, s1)), EventKey);
    PickedDistinct(world.fees, s1.ledger, money, true);
    forall t | t in txns ensures exists f :: f in posted && EventKey(f) == TxnKey(t) && t == MoveOf(world.fees, f) {
      AppendedIsFirst(world, s0, s1, t);
      var f :| f in money && EventKey(f) == TxnKey(t) && t == MoveOf(world.fees, f);
      assert OwnPosted(world.fees, s1.ledger, f);
    }
    forall f | f in posted ensures exists t :: t in txns && TxnKey(t) == EventKey(f) && t == MoveOf(world.fees, f) {
      PostedIsAppended(world, s0, s1, f);
    }
    SumsAgree(world.fees, txns, posted, a);
  }

  /** The shortfall is exact: at every moment of every stretch, settled or not, each
      account is short of what the events received and the repairs come to by what
      the movements still missing from the ledger would add. */
  lemma {:induction false} ShortfallIsExact(world: World, s0: State, steps: seq<Step>, s1: State, a: Account)
    requires Inv(world, s0) && Quiet(s0) && Run(world, s0, steps, s1)
    requires forall i :: 0 <= i < |steps| ==> Ours(s0, steps[i])
    ensures s0.ledger <= s1.ledger && s0.received <= s1.received
    ensures ExpectedWithRepairs(world.fees, a, s0, s1) ==
      NetChange(a, Appended(s0, s1)) + Lacks(world.fees, a, Missing(world.fees, s0, s1))
  {
    StretchRun(world, s0, steps, s1);
    PostedSum(world, s0, s1, a);
    PickedSums(world.fees, s1.ledger, MoneyFirsts(world.fees, Since(s0, s1)), (e: Event) => Effect(world.fees, a, e));
    NetChangeSplits(a, Appended(s0, s1));
  }

  /** The accounts every movement of the mapping adds to, and takes nothing from. */
  predicate OnlyGrows(a: Account) {
    a in {Bank, RefundsContra, DisputeLosses, ProcessingFees, Revenue}
  }

  function Weight(entries: seq<Entry>): int {
    Balance(Bank, entries) + Balance(RefundsContra, entries) + Balance(DisputeLosses, entries)
    + Balance(ProcessingFees, entries) + Balance(Revenue, entries)
  }

  predicate Grows(e: Entry) {
    e.amount > 0 && (e.account == StripeBalance || (OnlyGrows(e.account) && Normal(e.account) == Some(e.dir)))
  }

  lemma {:induction false} GrowingWeighs(entries: seq<Entry>)
    requires forall e :: e in entries ==> Grows(e)
    ensures Weight(entries) >= 0
    ensures (exists e :: e in entries && e.account != StripeBalance) ==> Weight(entries) > 0
  {
    if entries != [] {
      var rest, e := entries[..|entries| - 1], entries[|entries| - 1];
      assert entries == rest + [e] && e in entries && Grows(e);
      GrowingWeighs(rest);
      assert Weight(entries) == Weight(rest) + if OnlyGrows(e.account) then e.amount else 0;
    }
  }

  /** A movement the database would commit weighs something. */
  lemma {:induction false} CommittedWeighs(fees: Event -> int, e: Event)
    requires Moves(fees, e) && Commits(MoveOf(fees, e).entries)
    ensures Weight(MoveOf(fees, e).entries) > 0
  {
    var es := MoveOf(fees, e).entries;
    MappedGrows(fees, e);
    GrowingWeighs(es);
  }

  lemma {:induction false} EntriesGrow(etype: EventType, m: Movement, currency: string, x: Entry)
    requires x in Entries(etype, m, currency) && x.amount > 0
    ensures Grows(x)
  {
    match etype
    case ChargeSucceeded | PaymentIntentSucceeded => assert x in ChargeEntries(m.amount, m.fee, currency);
    case ChargeRefunded => assert x in RefundEntries(m.amount, currency);
    case DisputeCreated => assert x in DisputeEntries(m.amount, m.fee, currency);
    case _ =>
  }

  /** No movement posts to the Stripe balance alone. */
  lemma {:induction false} EntriesLeave(etype: EventType, m: Movement, currency: string)
    requires |Entries(etype, m, currency)| >= 2
    ensures exists x :: x in Entries(etype, m, currency) && x.account != StripeBalance
  {
    var es := Entries(etype, m, currency);
    assert es[0] in es && es[1] in es;
    assert es[0].account != StripeBalance || es[1].account != StripeBalance;
  }

  lemma {:induction false} MoveEntries(fees: Event -> int, e: Event) returns (m: Movement, currency: string)
    requires Moves(fees, e)
    ensures MoveOf(fees, e).entries == Entries(e.etype, m, currency)
  {
    hide Entries, Amounts, Upper;
    var fee := if Build(e, None).Err? then Some(fees(e)) else None;
    m, currency := Amounts(e.etype, e.data.value, fee).value, Upper(e.data.value.currency.value);
  }

  lemma {:induction false} MappedGrows(fees: Event -> int, e: Event)
    requires Moves(fees, e) && Commits(MoveOf(fees, e).entries)
    ensures forall x :: x in MoveOf(fees, e).entries ==> Grows(x)
    ensures exists x :: x in MoveOf(fees, e).entries && x.account != StripeBalance
  {
    hide Entries, Moves, MoveOf, Grows;
    var m, currency := MoveEntries(fees, e);
    forall x | x in MoveOf(fees, e).entries ensures Grows(x) {
      EntriesGrow(e.etype, m, currency, x);
    }
    EntriesLeave(e.etype, m, currency);
  }

  function Weighed(fees: Event -> int, events: seq<Event>): int {
    Lacks(fees, Bank, events) + Lacks(fees, RefundsContra, events) + Lacks(fees, DisputeLosses, events)
    + Lacks(fees, ProcessingFees, events) + Lacks(fees, Revenue, events)
  }

  lemma {:induction false} MissingWeighs(fees: Event -> int, events: seq<Event>)
    requires forall e :: e in events ==> Moves(fees, e) && Commits(MoveOf(fees, e).entries)
    ensures Weighed(fees, events) >= |events|
  {
    if events != [] {
      var rest, e := events[..|events| - 1], events[|events| - 1];
      assert e in events && forall x :: x in rest ==> x in events;
      MissingWeighs(fees, rest);
      CommittedWeighs(fees, e);
      assert Weighed(fees, events) == Weighed(fees, rest) + Weight(MoveOf(fees, e).entries);
    }
  }

  lemma {:induction false} NothingLacks(fees: Event -> int, events: seq<Event>)
    requires forall e :: e in events ==> Moves(fees, e) && Commits(MoveOf(fees, e).entries)
    ensures events == [] <==> forall a :: Lacks(fees, a, events) == 0
  {
    if events != [] {
      MissingWeighs(fees, events);
      var a :=
        if Lacks(fees, Bank, events) != 0 then Bank
        else if Lacks(fees, RefundsContra, events) != 0 then RefundsContra
        else if Lacks(fees, DisputeLosses, events) != 0 then DisputeLosses
        else if Lacks(fees, ProcessingFees, events) != 0 then ProcessingFees
        else Revenue;
      assert Lacks(fees, a, events) != 0;
    }
  }

  /** Amounts the database takes: 0 <= fee <= gross and so on (Mapping.CommitsIffSound). */
  ghost predicate SoundMoney(fees: Event -> int, events: seq<Event>) {
    forall f :: f in MoneyFirsts(fees, events) ==> Commits(MoveOf(fees, f).entries)
  }

  ghost predicate BalancesMatch(fees: Event -> int, s0: State, s1: State)
    requires s0.ledger <= s1.ledger && s0.received <= s1.received
  {
    forall a :: NetChange(a, Appended(s0, s1)) == ExpectedWithRepairs(fees, a, s0, s1)
  }

  /** Exactly when the balances are right: at any moment of any stretch, all accounts
      show what the events and the repairs come to if and only if each distinct
      movement received has its own transaction in the ledger. No two omissions
      cancel. */
  lemma {:induction false} MatchesIffPosted(world: World, s0: State, steps: seq<Step>, s1: State)
    requires Inv(world, s0) && Quiet(s0) && Run(world, s0, steps, s1)
    requires forall i :: 0 <= i < |steps| ==> Ours(s0, steps[i])
    requires s0.ledger <= s1.ledger && s0.received <= s1.received
    requires SoundMoney(world.fees, Since(s0, s1))
    ensures BalancesMatch(world.fees, s0, s1) <==>
      forall f :: f in MoneyFirsts(world.fees, Since(s0, s1)) ==> OwnPosted(world.fees, s1.ledger, f)
  {
    var missing := Missing(world.fees, s0, s1);
    forall a ensures NetChange(a, Appended(s0, s1)) == ExpectedWithRepairs(world.fees, a, s0, s1) <==> Lacks(world.fees, a, missing) == 0 {
      ShortfallIsExact(world, s0, steps, s1, a);
    }
    NothingLacks(world.fees, missing);
    assert missing != [] ==> missing[0] in missing;
  }

  /** And where a movement is missing from a drained state that answered every event,
      its row says so: it is 'failed', or 'queued' and stranded. */
  lemma {:induction false} MissingShows(world: World, s0: State, steps: seq<Step>, s1: State, f: Event)
    requires Inv(world, s0) && Quiet(s0) && Run(world, s0, steps, s1)
    requires forall i :: 0 <= i < |steps| ==> Ours(s0, steps[i])
    requires AllAnswered(s0, s1) && Quiet(s1)
    requires s0.received <= s1.received && f in Missing(world.fees, s0, s1)
    ensures HasRow(s1, f) && f.id !in s0.rows
    ensures s1.rows[f.id].status == Failed || (s1.rows[f.id].status == Queued && f.id in s1.stranded)
  {
    StretchRun(world, s0, steps, s1);
    DrainedSettles(world, s0, steps, s1);
    assert f in Firsts(Since(s0, s1)) && HasRow(s1, f) && f.id !in s0.rows;
    if s1.rows[f.id].status in {Processed, NoMoneyMoved} {
      SettledPosted(world, s1, f);
    }
  }

  ghost predicate Converged(world: World, s: State, events: seq<Event>) {
    forall a :: Balance(a, AllEntries(s.ledger)) == ExpectedChange(world.fees, a, events) + NetChange(a, Repairs(s.ledger))
  }

  /** And its exact condition, for any run from the start, drained or not: the
      balances are those of the events if and only if each distinct movement has its
      own transaction. */
  lemma {:induction false} ConvergedIffPosted(world: World, workers: nat, steps: seq<Step>, s: State, events: seq<Event>)
    requires Coherent(world) && Run(world, Start(workers), steps, s)
    requires SoundMoney(world.fees, s.received)
    requires forall e :: e in events <==> e in s.received
    ensures Converged(world, s, events) <==>
      forall f :: f in MoneyFirsts(world.fees, s.received) ==> OwnPosted(world.fees, s.ledger, f)
  {
    var s0 := Start(workers);
    StartInv(world, workers);
    RunKeepsInv(world, s0, steps, s);
    assert Since(s0, s) == s.received && Appended(s0, s) == s.ledger;
    MatchesIffPosted(world, s0, steps, s);
    forall a ensures
      Balance(a, AllEntries(s.ledger)) == ExpectedChange(world.fees, a, events) + NetChange(a, Repairs(s.ledger))
      <==> NetChange(a, Appended(s0, s)) == ExpectedWithRepairs(world.fees, a, s0, s)
    {
      OrderIrrelevant(world, events, s.received, a);
      BalanceOfLedger(a, s.ledger);
    }
  }
}
