/** What a proposed compensating transaction can undo (triage/bench.py,
    triage/schema.py): the scoring loops, and exactly which ledger damage a
    balanced repair can close. */
module Repair {
  import opened Wrappers
  import opened Ledger
  import opened Recon

  type Amount = x: int | x > 0 witness 1

  // A direction that is neither 'debit' nor 'credit' is None.
  datatype RepairEntry = RepairEntry(account: Account, dir: Option<Direction>, amount: Amount, currency: string)

  function Toward(e: RepairEntry, positive: Option<Direction>): int {
    if e.dir == positive then e.amount else 0 - e.amount
  }

  predicate Directed(entries: seq<RepairEntry>) {
    forall e :: e in entries ==> e.dir.Some?
  }

  function ToEntries(entries: seq<RepairEntry>): seq<Entry>
    requires Directed(entries)
  {
    if entries == [] then []
    else
      var e := entries[|entries| - 1];
      assert Directed(entries[..|entries| - 1]);
      ToEntries(entries[..|entries| - 1]) + [Entry(e.account, e.dir.value, e.amount, e.currency)]
  }

  /** Two entries or more, every direction known, debits equal to credits in
      every currency. */
  ghost predicate Balanced(entries: seq<RepairEntry>) {
    |entries| >= 2 && Directed(entries) && BalancedPerCurrency(ToEntries(entries))
  }

  lemma {:induction false} ToEntriesLast(rest: seq<RepairEntry>, e: RepairEntry)
    requires Directed(rest + [e])
    ensures Directed(rest)
    ensures ToEntries(rest + [e]) == ToEntries(rest) + [Entry(e.account, e.dir.value, e.amount, e.currency)]
  {
    assert (rest + [e])[..|rest|] == rest;
    assert forall x :: x in rest ==> x in rest + [e];
  }

  lemma {:induction false} NetLast(c: string, rest: seq<Entry>, e: Entry)
    ensures Net(c, rest + [e]) == Net(c, rest) + if e.currency == c then NetOf(e) else 0
  {
    assert (rest + [e])[..|rest|] == rest;
  }

  /** The loop's dictionary holds the net of every currency so far. */
  ghost predicate Totals(nets: map<string, int>, entries: seq<RepairEntry>)
    requires Directed(entries)
  {
    forall c :: (if c in nets then nets[c] else 0) == Net(c, ToEntries(entries))
  }

  lemma {:induction false} TotalsStep(nets: map<string, int>, rest: seq<RepairEntry>, e: RepairEntry)
    requires Directed(rest) && e.dir.Some? && Totals(nets, rest)
    ensures Directed(rest + [e])
    ensures Totals(
      nets[e.currency := (if e.currency in nets then nets[e.currency] else 0) + Toward(e, Some(Debit))],
      rest + [e])
  {
    ToEntriesLast(rest, e);
    var before, added := ToEntries(rest), Entry(e.account, e.dir.value, e.amount, e.currency);
    forall c ensures Net(c, before + [added]) == Net(c, before) + if e.currency == c then Toward(e, Some(Debit)) else 0 {
      NetLast(c, before, added);
    }
  }

  method AllZero(nets: map<string, int>) returns (ok: bool)
    ensures ok <==> forall c :: c in nets ==> nets[c] == 0
  {
    var rest := nets.Keys;
    while rest != {}
      invariant rest <= nets.Keys
      invariant forall c :: c in nets && c !in rest ==> nets[c] == 0
      decreases |rest|
    {
      var c :| c in rest;
      if nets[c] != 0 {
        return false;
      }
      rest := rest - {c};
    }
    return true;
  }

  lemma {:induction false} TotalsBalance(nets: map<string, int>, entries: seq<RepairEntry>)
    requires Directed(entries) && Totals(nets, entries)
    ensures (forall c :: c in nets ==> nets[c] == 0) <==> BalancedPerCurrency(ToEntries(entries))
  {
    hide Net, ToEntries;
    if forall c :: c in nets ==> nets[c] == 0 {
      forall c ensures Net(c, ToEntries(entries)) == 0 {
      }
    } else {
      var c :| c in nets && nets[c] != 0;
      assert Net(c, ToEntries(entries)) != 0;
    }
  }

  lemma {:induction false} SignedAmount(e: RepairEntry, sign: int)
    requires e.dir.Some? && sign == if e.dir == Some(Debit) then 1 else -1
    ensures sign * e.amount == Toward(e, Some(Debit))
  {
  }

  method RepairIsBalanced(entries: seq<RepairEntry>) returns (ok: bool)
    ensures ok <==> Balanced(entries)
  {
    hide Net, ToEntries, NetOf, BalancedPerCurrency, Toward;
    if |entries| < 2 {
      return false;
    }
    var nets: map<string, int> := map[];
    NoTotals();
    for i := 0 to |entries|
      invariant Directed(entries[..i]) && Totals(nets, entries[..i])
    {
      hide Totals;
      var e := entries[i];
      if e.dir.None? {
        assert e in entries;
        return false;
      }
      assert entries[..i + 1] == entries[..i] + [e];
      TotalsStep(nets, entries[..i], e);
      var sign := if e.dir == Some(Debit) then 1 else -1;
      SignedAmount(e, sign);
      nets := nets[e.currency := (if e.currency in nets then nets[e.currency] else 0) + sign * e.amount];
    }
    assert entries[..|entries|] == entries;
    TotalsBalance(nets, entries);
    ok := AllZero(nets);
  }

  lemma {:induction false} NoTotals()
    ensures Totals(map[], [])
  {
  }

  // ------------------------------------------------- applying a repair --

  /** What the entries add to an account; an account off the chart gets nothing. */
  function Effect(a: Account, entries: seq<RepairEntry>): int {
    if entries == [] then 0
    else
      var e := entries[|entries| - 1];
      Effect(a, entries[..|entries| - 1]) +
      if e.account != a || Normal(a).None? then 0 else Toward(e, Normal(a))
  }

  method ApplyRepair(observed: Balances, entries: seq<RepairEntry>) returns (r: Balances)
    ensures NonZero(r) == r
    ensures forall a :: Get(r, a) == Get(observed, a) + Effect(a, entries)
  {
    var result := observed;
    for i := 0 to |entries|
      invariant forall a :: Get(result, a) == Get(observed, a) + Effect(a, entries[..i])
    {
      var e := entries[i];
      assert entries[..i + 1][..i] == entries[..i];
      var normal := Normal(e.account);
      if normal.None? {
        result := result[e.account := Get(result, e.account)];
        continue;
      }
      var signed := Toward(e, normal);
      result := result[e.account := Get(result, e.account) + signed];
    }
    assert entries[..|entries|] == entries;
    r := NonZero(result);
    assert forall a :: Get(r, a) == Get(result, a);
  }

  ghost predicate Restores(observed: Balances, expected: Balances, entries: seq<RepairEntry>) {
    forall a :: Get(observed, a) + Effect(a, entries) == Get(expected, a)
  }

  lemma {:induction false} NonZeroEqual(d1: Balances, d2: Balances)
    requires forall a :: Get(d1, a) == Get(d2, a)
    ensures NonZero(d1) == NonZero(d2)
  {
    forall a ensures a in NonZero(d1) <==> a in NonZero(d2) {
      assert Get(d1, a) == Get(d2, a);
    }
    forall a | a in NonZero(d1) ensures NonZero(d1)[a] == NonZero(d2)[a] {
      assert Get(d1, a) == Get(d2, a);
    }
  }

  method RepairRestoresExpectedBalances(observed: Balances, expected: Balances, proposed: seq<RepairEntry>) returns (ok: bool)
    ensures ok <==> Balanced(proposed) && Restores(observed, expected, proposed)
  {
    if proposed == [] {
      return false;
    }
    var balanced := RepairIsBalanced(proposed);
    if !balanced {
      return false;
    }
    var repaired := ApplyRepair(observed, proposed);
    var wanted := NonZero(expected);
    ok := repaired == wanted;
    if ok {
      assert forall a :: Get(repaired, a) == Get(wanted, a) == Get(expected, a);
    }
    if Restores(observed, expected, proposed) {
      NonZeroEqual(repaired, expected);
    }
  }

  lemma {:induction false} EffectLast(a: Account, rest: seq<RepairEntry>, e: RepairEntry)
    ensures Effect(a, rest + [e]) ==
      Effect(a, rest) + if e.account != a || Normal(a).None? then 0 else Toward(e, Normal(a))
  {
    assert (rest + [e])[..|rest|] == rest;
  }

  lemma {:induction false} EffectOfOne(a: Account, e: RepairEntry)
    ensures Effect(a, [e]) == if e.account != a || Normal(a).None? then 0 else Toward(e, Normal(a))
  {
    assert [e] == [] + [e];
    EffectLast(a, [], e);
  }

  // --------------------------------------------------- the invariant gap --

  /** Debit-normal total minus credit-normal total. */
  function Gap(bal: Balances): int {
    InvariantCheck(bal).Difference()
  }

  /** Debits minus credits over every entry, or over those on unlisted accounts. */
  function TotalNet(entries: seq<RepairEntry>, unlistedOnly: bool): int {
    if entries == [] then 0
    else
      var e := entries[|entries| - 1];
      TotalNet(entries[..|entries| - 1], unlistedOnly) +
      if unlistedOnly && Listed(e.account) then 0 else Toward(e, Some(Debit))
  }

  ghost predicate After(after: Balances, before: Balances, entries: seq<RepairEntry>) {
    forall a :: Get(after, a) == Get(before, a) + Effect(a, entries)
  }

  function GapOfEffect(entries: seq<RepairEntry>): int {
    Effect(StripeBalance, entries) + Effect(Bank, entries) + Effect(ProcessingFees, entries)
    + Effect(DisputeLosses, entries) + Effect(RefundsContra, entries)
    - Effect(Revenue, entries) - Effect(CustomerLiability, entries)
  }

  lemma {:induction false} GapMoves(entries: seq<RepairEntry>)
    requires Directed(entries)
    ensures GapOfEffect(entries) == TotalNet(entries, false) - TotalNet(entries, true)
  {
    if entries != [] {
      var rest, e := entries[..|entries| - 1], entries[|entries| - 1];
      assert e in entries && forall x :: x in rest ==> x in entries;
      GapMoves(rest);
      EntryMovesGap(rest, e);
      assert entries == rest + [e];
    }
  }

  lemma {:induction false} EntryMovesGap(rest: seq<RepairEntry>, e: RepairEntry)
    requires e.dir.Some?
    ensures GapOfEffect(rest + [e]) == GapOfEffect(rest) + if Listed(e.account) then Toward(e, Some(Debit)) else 0
  {
    EffectLast(StripeBalance, rest, e);
    EffectLast(Bank, rest, e);
    EffectLast(ProcessingFees, rest, e);
    EffectLast(DisputeLosses, rest, e);
    EffectLast(RefundsContra, rest, e);
    EffectLast(Revenue, rest, e);
    EffectLast(CustomerLiability, rest, e);
    assert e.dir == Some(Debit) || e.dir == Some(Credit) by {
      assert e.dir.value.Debit? || e.dir.value.Credit?;
    }
    assert Toward(e, Some(Credit)) == -Toward(e, Some(Debit));
  }

  function WithoutCurrency(entries: seq<RepairEntry>, c: string): seq<RepairEntry> {
    if entries == [] then []
    else
      var e := entries[|entries| - 1];
      WithoutCurrency(entries[..|entries| - 1], c) + if e.currency == c then [] else [e]
  }

  function SignedNet(c: string, entries: seq<RepairEntry>): int {
    if entries == [] then 0
    else
      var e := entries[|entries| - 1];
      SignedNet(c, entries[..|entries| - 1]) +
      if e.currency != c then 0 else Toward(e, Some(Debit))
  }

  lemma {:induction false} SignedNetLast(c: string, rest: seq<RepairEntry>, e: RepairEntry)
    ensures SignedNet(c, rest + [e]) == SignedNet(c, rest) + if e.currency != c then 0 else Toward(e, Some(Debit))
  {
    assert (rest + [e])[..|rest|] == rest;
  }

  lemma {:induction false} SignedNetIsNet(c: string, entries: seq<RepairEntry>)
    requires Directed(entries)
    ensures SignedNet(c, entries) == Net(c, ToEntries(entries))
  {
    if entries != [] {
      var rest, e := entries[..|entries| - 1], entries[|entries| - 1];
      assert entries == rest + [e];
      ToEntriesLast(rest, e);
      SignedNetIsNet(c, rest);
      NetLast(c, ToEntries(rest), Entry(e.account, e.dir.value, e.amount, e.currency));
    }
  }

  lemma {:induction false} DropCurrency(entries: seq<RepairEntry>, c: string, d: string)
    ensures SignedNet(d, WithoutCurrency(entries, c)) == if c == d then 0 else SignedNet(d, entries)
    ensures TotalNet(entries, false) == SignedNet(c, entries) + TotalNet(WithoutCurrency(entries, c), false)
    ensures |WithoutCurrency(entries, c)| <= |entries|
    ensures entries != [] && entries[|entries| - 1].currency == c ==> |WithoutCurrency(entries, c)| < |entries|
  {
    if entries != [] {
      var rest, e := entries[..|entries| - 1], entries[|entries| - 1];
      DropCurrency(rest, c, d);
      var kept := WithoutCurrency(rest, c);
      assert (kept + [e])[..|kept|] == kept;
      assert kept + [] == kept;
    }
  }

  /** Balanced in each currency is balanced in all. */
  lemma {:induction false} CurrenciesCancel(entries: seq<RepairEntry>)
    requires forall c :: SignedNet(c, entries) == 0
    ensures TotalNet(entries, false) == 0
    decreases |entries|
  {
    if entries != [] {
      var c := entries[|entries| - 1].currency;
      forall d ensures SignedNet(d, WithoutCurrency(entries, c)) == 0 {
        DropCurrency(entries, c, d);
      }
      DropCurrency(entries, c, c);
      CurrenciesCancel(WithoutCurrency(entries, c));
    }
  }

  /** A balanced repair moves the gap by exactly what it posts off the chart: it is
      unchanged if and only if the entries on unlisted accounts balance on their own. */
  lemma {:induction false} BalancedKeepsGap(before: Balances, after: Balances, entries: seq<RepairEntry>)
    requires Balanced(entries) && After(after, before, entries)
    ensures Gap(after) == Gap(before) - TotalNet(entries, true)
    ensures Gap(after) == Gap(before) <==> TotalNet(entries, true) == 0
  {
    forall c ensures SignedNet(c, entries) == 0 {
      SignedNetIsNet(c, entries);
    }
    CurrenciesCancel(entries);
    GapMoves(entries);
    assert Gap(after) == Gap(before) + GapOfEffect(entries);
  }

  ghost predicate OnChartRepair(entries: seq<RepairEntry>) {
    forall e :: e in entries ==> Listed(e.account) && e.currency == CHART_CURRENCY
  }

  lemma {:induction false} ListedHasNoUnlisted(entries: seq<RepairEntry>)
    requires forall e :: e in entries ==> Listed(e.account)
    ensures TotalNet(entries, true) == 0
  {
    if entries != [] {
      assert entries[|entries| - 1] in entries;
      ListedHasNoUnlisted(entries[..|entries| - 1]);
    }
  }

  lemma {:induction false} ToEntriesAre(entries: seq<RepairEntry>)
    requires Directed(entries)
    ensures |ToEntries(entries)| == |entries|
    ensures forall i :: 0 <= i < |entries| ==>
      ToEntries(entries)[i] == Entry(entries[i].account, entries[i].dir.value, entries[i].amount, entries[i].currency)
  {
    if entries != [] {
      var rest, e := entries[..|entries| - 1], entries[|entries| - 1];
      assert entries == rest + [e];
      ToEntriesLast(rest, e);
      ToEntriesAre(rest);
    }
  }

  /** The stand-in and the database: a repair commits exactly when the stand-in
      accepts it and every entry is on the chart and in its currency. */
  lemma {:induction false} DatabaseAccepts(entries: seq<RepairEntry>)
    requires Directed(entries)
    ensures Commits(ToEntries(entries)) <==> Balanced(entries) && OnChartRepair(entries)
  {
    ToEntriesAre(entries);
    var es := ToEntries(entries);
    if Commits(es) {
      forall e | e in entries ensures Listed(e.account) && e.currency == CHART_CURRENCY {
        var i :| 0 <= i < |entries| && entries[i] == e;
        assert es[i] in es;
      }
    }
  }

  // -------------------------------------- which damage can be undone --

  ghost predicate SameOffChart(d1: Balances, d2: Balances) {
    forall a :: !Listed(a) ==> Get(d1, a) == Get(d2, a)
  }

  /** The entry that takes a surplus on one account back out. */
  function Reversal(a: Account, surplus: int): seq<RepairEntry> {
    if surplus == 0 then []
    else
      var reversing := if (surplus > 0) == (Normal(a) == Some(Debit)) then Credit else Debit;
      [RepairEntry(a, Some(reversing), if surplus > 0 then surplus else -surplus, CHART_CURRENCY)]
  }

  /** The mirror of the surplus on the given accounts. */
  function MirrorOn(observed: Balances, expected: Balances, accounts: seq<Account>): seq<RepairEntry> {
    if accounts == [] then []
    else
      var a := accounts[|accounts| - 1];
      MirrorOn(observed, expected, accounts[..|accounts| - 1]) + Reversal(a, Get(observed, a) - Get(expected, a))
  }

  function Mirror(observed: Balances, expected: Balances): seq<RepairEntry> {
    MirrorOn(observed, expected, CHART)
  }

  lemma {:induction false} EffectConcat(a: Account, xs: seq<RepairEntry>, ys: seq<RepairEntry>)
    ensures Effect(a, xs + ys) == Effect(a, xs) + Effect(a, ys)
  {
    if ys == [] {
      assert xs + ys == xs;
    } else {
      assert (xs + ys)[..|xs + ys| - 1] == xs + ys[..|ys| - 1];
      EffectConcat(a, xs, ys[..|ys| - 1]);
    }
  }

  lemma {:induction false} MirrorLast(observed: Balances, expected: Balances, rest: seq<Account>, a: Account)
    ensures MirrorOn(observed, expected, rest + [a]) ==
      MirrorOn(observed, expected, rest) + Reversal(a, Get(observed, a) - Get(expected, a))
  {
    assert (rest + [a])[..|rest|] == rest;
  }

  lemma {:induction false} MirrorOnChart(observed: Balances, expected: Balances, accounts: seq<Account>)
    requires forall a :: a in accounts ==> Listed(a)
    ensures OnChartRepair(MirrorOn(observed, expected, accounts)) && Directed(MirrorOn(observed, expected, accounts))
  {
    if accounts != [] {
      assert accounts[|accounts| - 1] in accounts;
      MirrorOnChart(observed, expected, accounts[..|accounts| - 1]);
    }
  }

  lemma {:induction false} ReversalEffect(a: Account, b: Account, surplus: int)
    requires Listed(b)
    ensures Effect(a, Reversal(b, surplus)) == if a == b then -surplus else 0
  {
    if surplus != 0 {
      EffectOfOne(a, Reversal(b, surplus)[0]);
      assert Reversal(b, surplus) == [Reversal(b, surplus)[0]];
    }
  }

  lemma {:induction false} AfterReversal(a: Account, m: seq<RepairEntry>, b: Account, surplus: int)
    requires Listed(b)
    ensures Effect(a, m + Reversal(b, surplus)) == Effect(a, m) + if a == b then -surplus else 0
  {
    ReversalEffect(a, b, surplus);
    EffectConcat(a, m, Reversal(b, surplus));
  }

  /** Listed accounts, each once. */
  ghost predicate Apart(accounts: seq<Account>) {
    && (forall i :: 0 <= i < |accounts| ==> Listed(accounts[i]))
    && forall i, j :: 0 <= i < j < |accounts| ==> accounts[i] != accounts[j]
  }

  lemma {:induction false} ApartLast(accounts: seq<Account>, rest: seq<Account>, b: Account, a: Account)
    requires Apart(accounts) && accounts != []
    requires rest == accounts[..|accounts| - 1] && b == accounts[|accounts| - 1]
    ensures accounts == rest + [b]
    ensures Apart(rest) && Listed(b) && b !in rest
    ensures a in accounts <==> a in rest || a == b
  {
    assert accounts == rest + [b];
  }

  lemma {:induction false} MirrorStep(observed: Balances, expected: Balances, rest: seq<Account>, b: Account, a: Account)
    requires Listed(b)
    ensures Effect(a, MirrorOn(observed, expected, rest + [b])) ==
      Effect(a, MirrorOn(observed, expected, rest)) + if a == b then Get(expected, a) - Get(observed, a) else 0
  {
    hide MirrorOn, Effect, Reversal;
    MirrorLast(observed, expected, rest, b);
    AfterReversal(a, MirrorOn(observed, expected, rest), b, Get(observed, b) - Get(expected, b));
  }

  lemma {:induction false} MirrorEffect(observed: Balances, expected: Balances, accounts: seq<Account>, a: Account)
    requires Apart(accounts)
    ensures Effect(a, MirrorOn(observed, expected, accounts)) ==
      if a in accounts then Get(expected, a) - Get(observed, a) else 0
  {
    if accounts != [] {
      hide *;
      var rest, b := accounts[..|accounts| - 1], accounts[|accounts| - 1];
      ApartLast(accounts, rest, b, a);
      MirrorEffect(observed, expected, rest, a);
      MirrorStep(observed, expected, rest, b, a);
    }
  }

  lemma {:induction false} ChartIsListed()
    ensures forall a :: a in CHART <==> Listed(a)
    ensures Apart(CHART)
  {
    forall a | Listed(a) ensures a in CHART {
      assert CHART[Rank(a)] == a;
    }
  }

  lemma {:induction false} OtherCurrencyNet(entries: seq<RepairEntry>, c: string)
    requires OnChartRepair(entries) && c != CHART_CURRENCY
    ensures SignedNet(c, entries) == 0
  {
    if entries != [] {
      assert entries[|entries| - 1] in entries;
      OtherCurrencyNet(entries[..|entries| - 1], c);
    }
  }

  lemma {:induction false} ChartNetIsTotal(entries: seq<RepairEntry>)
    requires OnChartRepair(entries)
    ensures SignedNet(CHART_CURRENCY, entries) == TotalNet(entries, false)
  {
    if entries != [] {
      assert entries[|entries| - 1] in entries;
      ChartNetIsTotal(entries[..|entries| - 1]);
    }
  }

  ghost predicate Undoes(m: seq<RepairEntry>, observed: Balances, expected: Balances) {
    forall a :: Effect(a, m) == if Listed(a) then Get(expected, a) - Get(observed, a) else 0
  }

  ghost predicate NetsTo(m: seq<RepairEntry>, net: int) {
    forall c :: SignedNet(c, m) == if c == CHART_CURRENCY then net else 0
  }

  lemma {:induction false} UndoesGap(m: seq<RepairEntry>, observed: Balances, expected: Balances)
    requires Undoes(m, observed, expected)
    ensures GapOfEffect(m) == Gap(expected) - Gap(observed)
  {
  }

  /** The mirror's net is the difference of the gaps. */
  lemma {:induction false} MirrorNet(observed: Balances, expected: Balances)
    ensures var m := Mirror(observed, expected);
      && Undoes(m, observed, expected) && OnChartRepair(m) && Directed(m)
      && NetsTo(m, Gap(expected) - Gap(observed))
  {
    var m := Mirror(observed, expected);
    ChartIsListed();
    forall a ensures Effect(a, m) == if Listed(a) then Get(expected, a) - Get(observed, a) else 0 {
      MirrorEffect(observed, expected, CHART, a);
    }
    MirrorOnChart(observed, expected, CHART);
    UndoesGap(m, observed, expected);
    GapMoves(m);
    ListedHasNoUnlisted(m);
    ChartNetIsTotal(m);
    forall c | c != CHART_CURRENCY ensures SignedNet(c, m) == 0 {
      OtherCurrencyNet(m, c);
    }
  }

  lemma {:induction false} SomeUndoing(observed: Balances, expected: Balances) returns (m: seq<RepairEntry>)
    ensures Undoes(m, observed, expected) && Directed(m) && NetsTo(m, Gap(expected) - Gap(observed))
  {
    MirrorNet(observed, expected);
    m := Mirror(observed, expected);
  }

  lemma {:induction false} BalancedBySigns(entries: seq<RepairEntry>)
    requires |entries| >= 2 && Directed(entries) && NetsTo(entries, 0)
    ensures Balanced(entries)
  {
    forall c ensures Net(c, ToEntries(entries)) == 0 {
      SignedNetIsNet(c, entries);
    }
  }

  lemma {:induction false} FewNet(m: seq<RepairEntry>, net: int)
    requires |m| < 2 && NetsTo(m, net)
    ensures m == [] <==> net == 0
  {
    if |m| == 1 {
      assert m == [] + [m[0]];
      SignedNetLast(m[0].currency, [], m[0]);
    }
    assert SignedNet(CHART_CURRENCY, m) == net;
  }

  lemma {:induction false} UndoingRestores(m: seq<RepairEntry>, observed: Balances, expected: Balances, a: Account)
    requires Undoes(m, observed, expected) && Directed(m) && NetsTo(m, 0)
    requires SameOffChart(observed, expected) && Get(observed, a) != Get(expected, a)
    ensures |m| >= 2 && Balanced(m) && Restores(observed, expected, m)
  {
    assert Effect(a, m) != 0;
    if |m| < 2 {
      FewNet(m, 0);
    }
    BalancedBySigns(m);
  }

  /** When the gaps agree and the balances differ, the mirror of the surplus is a
      balanced repair of at least two entries, on the chart, and it succeeds. */
  lemma {:induction false} MirrorRepairs(observed: Balances, expected: Balances, a: Account)
    requires Gap(observed) == Gap(expected) && SameOffChart(observed, expected)
    requires Get(observed, a) != Get(expected, a)
    ensures var m := Mirror(observed, expected);
      |m| >= 2 && Balanced(m) && OnChartRepair(m) && Restores(observed, expected, m)
  {
    MirrorNet(observed, expected);
    UndoingRestores(Mirror(observed, expected), observed, expected, a);
  }

  /** A pair of entries that cancel: it moves nothing. */
  function Wash(): seq<RepairEntry> {
    [RepairEntry(Revenue, Some(Debit), 1, CHART_CURRENCY), RepairEntry(Revenue, Some(Credit), 1, CHART_CURRENCY)]
  }

  lemma {:induction false} WashMovesNothing(d: Balances)
    ensures Balanced(Wash()) && OnChartRepair(Wash()) && Undoes(Wash(), d, d)
  {
    var w := Wash();
    assert w == [w[0]] + [w[1]] && [w[0]] == [] + [w[0]];
    forall c ensures SignedNet(c, w) == 0 {
      SignedNetLast(c, [], w[0]);
      SignedNetLast(c, [w[0]], w[1]);
    }
    forall a ensures Effect(a, w) == 0 {
      EffectOfOne(a, w[0]);
      EffectLast(a, [w[0]], w[1]);
    }
    BalancedBySigns(w);
  }

  ghost predicate Repairable(observed: Balances, expected: Balances) {
    exists r :: Balanced(r) && OnChartRepair(r) && Restores(observed, expected, r)
  }

  /** A repair the database would take, restoring what was expected, exists exactly
      when the two ledgers have the same invariant gap (and agree off the chart). */
  lemma {:induction false} RepairableIffSameGap(observed: Balances, expected: Balances)
    ensures Repairable(observed, expected) <==> Gap(observed) == Gap(expected) && SameOffChart(observed, expected)
  {
    if Repairable(observed, expected) {
      var r :| Balanced(r) && OnChartRepair(r) && Restores(observed, expected, r);
      ListedHasNoUnlisted(r);
      BalancedKeepsGap(observed, expected, r);
      forall a | !Listed(a) ensures Get(observed, a) == Get(expected, a) {
        NoEffectOffChart(a, r);
      }
    }
    if Gap(observed) == Gap(expected) && SameOffChart(observed, expected) {
      if a :| Get(observed, a) != Get(expected, a) {
        MirrorRepairs(observed, expected, a);
      } else {
        WashMovesNothing(observed);
        assert Restores(observed, expected, Wash());
      }
    }
  }

  lemma {:induction false} NoEffectOffChart(a: Account, entries: seq<RepairEntry>)
    requires !Listed(a)
    ensures Effect(a, entries) == 0
  {
    if entries != [] {
      NoEffectOffChart(a, entries[..|entries| - 1]);
    }
  }

  ghost predicate Scored(observed: Balances, expected: Balances, r: seq<RepairEntry>) {
    Balanced(r) && Restores(observed, expected, r)
  }

  /** The score alone asks less than the database: with an entry on an account that
      does not exist, every pair of ledgers that agree off the chart can be scored as
      restored, whatever their gaps. */
  lemma {:induction false} ScoreIgnoresGap(observed: Balances, expected: Balances)
    ensures (exists r :: Scored(observed, expected, r)) <==> SameOffChart(observed, expected)
  {
    if r :| Scored(observed, expected, r) {
      forall a | !Listed(a) ensures Get(observed, a) == Get(expected, a) {
        NoEffectOffChart(a, r);
      }
    }
    if SameOffChart(observed, expected) {
      if Gap(observed) == Gap(expected) {
        RepairableIffSameGap(observed, expected);
        var r :| Balanced(r) && OnChartRepair(r) && Restores(observed, expected, r);
        assert Scored(observed, expected, r);
      } else {
        var m := SomeUndoing(observed, expected);
        Plugged(m, Gap(expected) - Gap(observed), observed, expected);
      }
    }
  }

  function Plug(gap: int): RepairEntry
    requires gap != 0
  {
    RepairEntry(Unlisted("suspense"), Some(if gap > 0 then Credit else Debit), if gap > 0 then gap else -gap, CHART_CURRENCY)
  }

  lemma {:induction false} Plugged(m: seq<RepairEntry>, gap: int, observed: Balances, expected: Balances)
    requires Directed(m) && NetsTo(m, gap) && gap != 0
    requires Undoes(m, observed, expected) && SameOffChart(observed, expected)
    ensures Scored(observed, expected, m + [Plug(gap)])
  {
    var e := Plug(gap);
    if m == [] {
      FewNet(m, gap);
    }
    forall c ensures SignedNet(c, m + [e]) == 0 {
      SignedNetLast(c, m, e);
    }
    BalancedBySigns(m + [e]);
    forall a ensures Effect(a, m + [e]) == Effect(a, m) {
      EffectLast(a, m, e);
    }
  }

  /** A charge posted gross instead of net: no repair the database takes can undo
      it, yet this one is scored as restoring it. */
  lemma {:induction false} UnknownAccountScores()
    ensures var observed := map[StripeBalance := 1000, ProcessingFees := 59, Revenue := 1000];
      var expected := map[StripeBalance := 941, ProcessingFees := 59, Revenue := 1000];
      && !Repairable(observed, expected)
      && exists r :: Scored(observed, expected, r) && !Commits(ToEntries(r))
  {
    var observed: Balances := map[StripeBalance := 1000, ProcessingFees := 59, Revenue := 1000];
    var expected: Balances := map[StripeBalance := 941, ProcessingFees := 59, Revenue := 1000];
    RepairableIffSameGap(observed, expected);
    ScoreIgnoresGap(observed, expected);
    var r :| Scored(observed, expected, r);
    DatabaseAccepts(r);
  }
}
