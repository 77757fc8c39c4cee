/** The reconciler (recon/reconciler.py): how it reduces the ledger to one signed
    delta per transaction, and its diff against the events known to be delivered. */
module Recon {
  import opened Wrappers
  import opened Sums
  import opened Ledger

  datatype Summary = Summary(
    id: TxnId, eventId: Option<string>, objectId: Option<string>, etype: Option<EventType>,
    delta: Balances, debitTotal: int)

  // ------------------------------------------------- loading the ledger --

  function Debits(entries: seq<Entry>): int {
    if entries == [] then 0
    else
      var e := entries[|entries| - 1];
      Debits(entries[..|entries| - 1]) + if e.dir == Debit then e.amount else 0
  }

  /** What is posted to one account in one direction. */
  function Side(a: Account, dir: Direction, entries: seq<Entry>): int {
    if entries == [] then 0
    else
      var e := entries[|entries| - 1];
      Side(a, dir, entries[..|entries| - 1]) + if e.account == a && e.dir == dir then e.amount else 0
  }

  predicate Touches(entries: seq<Entry>, a: Account) {
    exists e :: e in entries && e.account == a
  }

  /** What a transaction is, reduced to its per-account effect. */
  function Summarise(t: Txn): Summary {
    Summary(t.id, t.eventId, t.objectId, t.etype, NonZero(AllBalances(t.entries)), Debits(t.entries))
  }

  function Summaries(txns: seq<Txn>): (r: seq<Summary>)
    ensures |r| == |txns|
    ensures forall i :: 0 <= i < |txns| ==> r[i] == Summarise(txns[i])
  {
    if txns == [] then [] else Summaries(txns[..|txns| - 1]) + [Summarise(txns[|txns| - 1])]
  }

  // The accounts in the name order the query sorts by.
  const CHART: seq<Account> :=
    [Bank, CustomerLiability, DisputeLosses, ProcessingFees, RefundsContra, Revenue, StripeBalance]

  function Rank(a: Account): (i: nat)
    requires Listed(a)
    ensures i < |CHART| && CHART[i] == a
  {
    match a
    case Bank => 0
    case CustomerLiability => 1
    case DisputeLosses => 2
    case ProcessingFees => 3
    case RefundsContra => 4
    case Revenue => 5
    case StripeBalance => 6
  }

  lemma {:induction false} RankOf(i: nat)
    requires i < |CHART|
    ensures Listed(CHART[i]) && Rank(CHART[i]) == i
  {
  }

  // One row of the grouped query: one transaction, one account it has entries on.
  datatype Row = Row(
    id: TxnId, eventId: Option<string>, objectId: Option<string>, etype: Option<EventType>,
    account: Account, net: int, debit: int)

  function TxnRows(t: Txn, k: nat): seq<Row>
    requires k <= |CHART|
  {
    if k == 0 then []
    else
      var a := CHART[k - 1];
      TxnRows(t, k - 1) +
      if Touches(t.entries, a)
      then [Row(t.id, t.eventId, t.objectId, t.etype, a, Balance(a, t.entries), Side(a, Debit, t.entries))]
      else []
  }

  function RowsOf(t: Txn): seq<Row> {
    TxnRows(t, |CHART|)
  }

  function Rows(txns: seq<Txn>): seq<Row> {
    if txns == [] then [] else Rows(txns[..|txns| - 1]) + RowsOf(txns[|txns| - 1])
  }

  function Fold(s: Summary, r: Row): Summary {
    s.(delta := if r.net != 0 then s.delta[r.account := r.net] else s.delta, debitTotal := s.debitTotal + r.debit)
  }

  function Fresh(r: Row): Summary {
    Fold(Summary(r.id, r.eventId, r.objectId, r.etype, map[], 0), r)
  }

  predicate HasId(ledger: seq<Summary>, id: TxnId) {
    exists i :: 0 <= i < |ledger| && ledger[i].id == id
  }

  /** The grouping of rows by transaction, in first-seen order: the row extends
      the group of its id if there is one, and opens a group otherwise. */
  ghost predicate Groups(before: seq<Summary>, r: Row, after: seq<Summary>) {
    if HasId(before, r.id)
    then exists i :: 0 <= i < |before| && before[i].id == r.id && after == before[i := Fold(before[i], r)]
    else after == before + [Fresh(r)]
  }

  function Summed(t: Txn, k: nat): Summary
    requires k <= |CHART|
  {
    if k == 0 then Summary(t.id, t.eventId, t.objectId, t.etype, map[], 0)
    else
      var s, a := Summed(t, k - 1), CHART[k - 1];
      if Touches(t.entries, a)
      then s.(delta := if Balance(a, t.entries) != 0 then s.delta[a := Balance(a, t.entries)] else s.delta,
              debitTotal := s.debitTotal + Side(a, Debit, t.entries))
      else s
  }

  lemma {:induction false} Untouched(a: Account, dir: Direction, entries: seq<Entry>)
    requires !Touches(entries, a)
    ensures Side(a, dir, entries) == 0 && Balance(a, entries) == 0
  {
    if entries != [] {
      assert entries[|entries| - 1] in entries;
      assert forall e :: e in entries[..|entries| - 1] ==> e in entries;
      Untouched(a, dir, entries[..|entries| - 1]);
    }
  }

  /** The total on one side over the first k accounts of the chart. */
  function SideTotal(dir: Direction, entries: seq<Entry>, k: nat): int
    requires k <= |CHART|
  {
    if k == 0 then 0 else SideTotal(dir, entries, k - 1) + Side(CHART[k - 1], dir, entries)
  }

  lemma {:induction false} SideTotalLast(dir: Direction, rest: seq<Entry>, e: Entry, k: nat)
    requires k <= |CHART| && Listed(e.account)
    ensures SideTotal(dir, rest + [e], k) ==
      SideTotal(dir, rest, k) + if e.dir == dir && Rank(e.account) < k then e.amount else 0
  {
    if k > 0 {
      SideTotalLast(dir, rest, e, k - 1);
      RankOf(k - 1);
      assert (rest + [e])[..|rest|] == rest;
    }
  }

  lemma {:induction false} SideTotalEmpty(dir: Direction, k: nat)
    requires k <= |CHART|
    ensures SideTotal(dir, [], k) == 0
  {
    if k > 0 {
      SideTotalEmpty(dir, k - 1);
    }
  }

  lemma {:induction false} SidesCover(entries: seq<Entry>)
    requires OnChart(entries)
    ensures SideTotal(Debit, entries, |CHART|) == Debits(entries)
    ensures Debits(entries) - SideTotal(Credit, entries, |CHART|) == Net(CHART_CURRENCY, entries)
  {
    if entries == [] {
      SideTotalEmpty(Debit, |CHART|);
      SideTotalEmpty(Credit, |CHART|);
    } else {
      var rest, e := entries[..|entries| - 1], entries[|entries| - 1];
      assert e in entries && forall x :: x in rest ==> x in entries;
      assert entries == rest + [e];
      SidesCover(rest);
      SideTotalLast(Debit, rest, e, |CHART|);
      SideTotalLast(Credit, rest, e, |CHART|);
    }
  }

  lemma {:induction false} SummedAllDelta(t: Txn)
    requires OnChart(t.entries)
    ensures Summed(t, |CHART|).delta == NonZero(AllBalances(t.entries))
  {
    SummedDelta(t, |CHART|);
    var delta := Summed(t, |CHART|).delta;
    forall a | Listed(a) ensures a in delta <==> Balance(a, t.entries) != 0 {
      assert CHART[Rank(a)] == a;
    }
  }

  /** A whole transaction's rows fold to its summary. */
  lemma {:induction false} SummedAll(t: Txn)
    requires OnChart(t.entries)
    ensures Summed(t, |CHART|) == Summarise(t)
  {
    SummedAllDelta(t);
    SummedTotal(t, |CHART|);
    SidesCover(t.entries);
    SummedDelta(t, |CHART|);
  }

  lemma {:induction false} SummedTotal(t: Txn, k: nat)
    requires k <= |CHART|
    ensures Summed(t, k).debitTotal == SideTotal(Debit, t.entries, k)
  {
    if k > 0 {
      SummedTotal(t, k - 1);
      if !Touches(t.entries, CHART[k - 1]) {
        Untouched(CHART[k - 1], Debit, t.entries);
      }
    }
  }

  lemma {:induction false} SummedDelta(t: Txn, k: nat)
    requires k <= |CHART|
    ensures var s := Summed(t, k);
      && s.(delta := map[], debitTotal := 0) == Summary(t.id, t.eventId, t.objectId, t.etype, map[], 0)
      && (forall i :: 0 <= i < k && Balance(CHART[i], t.entries) != 0 ==> CHART[i] in s.delta)
      && (forall a :: a in s.delta ==> Listed(a) && s.delta[a] == Balance(a, t.entries) != 0)
  {
    if k > 0 {
      SummedDelta(t, k - 1);
      var a := CHART[k - 1];
      if !Touches(t.entries, a) {
        Untouched(a, Debit, t.entries);
      }
    }
  }

  lemma {:induction false} GroupOpen(ledger: seq<Summary>, s: Summary, r: Row, after: seq<Summary>)
    requires !HasId(ledger, r.id) && s.id == r.id
    requires Groups(ledger + [s], r, after)
    ensures after == ledger + [Fold(s, r)]
  {
    var before := ledger + [s];
    assert before[|ledger|].id == r.id;
    assert HasId(before, r.id);
    var i :| 0 <= i < |before| && before[i].id == r.id && after == before[i := Fold(before[i], r)];
    assert forall j :: 0 <= j < |ledger| ==> before[j] == ledger[j] && ledger[j].id != r.id;
  }

  /** A run of the grouping loop over rows, one state per row. */
  ghost predicate Grouping(rows: seq<Row>, start: seq<Summary>, steps: seq<seq<Summary>>) {
    && |steps| == |rows| + 1
    && steps[0] == start
    && forall i :: 0 <= i < |rows| ==> Groups(steps[i], rows[i], steps[i + 1])
  }

  lemma {:induction false} GroupingSplit(rows: seq<Row>, more: seq<Row>, start: seq<Summary>, steps: seq<seq<Summary>>)
    requires Grouping(rows + more, start, steps)
    ensures Grouping(rows, start, steps[..|rows| + 1])
    ensures Grouping(more, steps[|rows|], steps[|rows|..])
  {
    var n := |rows|;
    forall i | 0 <= i < n ensures Groups(steps[i], rows[i], steps[i + 1]) {
      assert (rows + more)[i] == rows[i];
    }
    forall i | 0 <= i < |more| ensures Groups(steps[n..][i], more[i], steps[n..][i + 1]) {
      assert (rows + more)[n + i] == more[i];
    }
  }

  /** One more account touched: its row opens the transaction's group, or joins it. */
  lemma {:induction false} GroupTouched(before: seq<Row>, r: Row, start: seq<Summary>, after: seq<Summary>, ledger: seq<Summary>, t: Txn, k: nat)
    requires 0 < k <= |CHART| && Touches(t.entries, CHART[k - 1]) && !HasId(ledger, t.id)
    requires before == TxnRows(t, k - 1) && TxnRows(t, k) == before + [r]
    requires start == ledger + if before == [] then [] else [Summed(t, k - 1)]
    requires before == [] ==> Summed(t, k - 1) == Summed(t, 0)
    requires Groups(start, r, after)
    ensures after == ledger + [Summed(t, k)]
  {
    hide Balance, Side;
    assert r == TxnRows(t, k)[|before|];
    if before != [] {
      SummedKeepsId(t, k - 1);
      GroupOpen(ledger, Summed(t, k - 1), r, after);
    }
  }

  /** Grouping the rows of one transaction after a ledger that does not hold it. */
  lemma {:induction false} GroupOne(steps: seq<seq<Summary>>, ledger: seq<Summary>, t: Txn, k: nat)
    requires k <= |CHART|
    requires !HasId(ledger, t.id)
    requires Grouping(TxnRows(t, k), ledger, steps)
    ensures steps[|steps| - 1] == ledger + if TxnRows(t, k) == [] then [] else [Summed(t, k)]
    ensures TxnRows(t, k) == [] ==> Summed(t, k) == Summed(t, 0)
  {
    hide Balance, Side, HasId, Groups;
    if k > 0 {
      var before := TxnRows(t, k - 1);
      if Touches(t.entries, CHART[k - 1]) {
        var r := TxnRows(t, k)[|before|];
        assert TxnRows(t, k) == before + [r];
        hide TxnRows, Summed, Touches;
        GroupingSplit(before, [r], ledger, steps);
        GroupOne(steps[..|before| + 1], ledger, t, k - 1);
        assert Groups(steps[|before|], r, steps[|before| + 1]);
        GroupTouched(before, r, steps[|before|], steps[|before| + 1], ledger, t, k);
      } else {
        GroupOne(steps, ledger, t, k - 1);
      }
    }
  }

  lemma {:induction false} SummedKeepsId(t: Txn, k: nat)
    requires k <= |CHART|
    ensures Summed(t, k).id == t.id
  {
    if k > 0 {
      SummedKeepsId(t, k - 1);
    }
  }

  ghost predicate Loadable(txns: seq<Txn>) {
    && (forall i :: 0 <= i < |txns| ==> OnChart(txns[i].entries) && txns[i].entries != [])
    && (forall i, j :: 0 <= i < j < |txns| ==> txns[i].id != txns[j].id)
  }

  lemma {:induction false} TouchedRow(t: Txn)
    requires OnChart(t.entries) && t.entries != []
    ensures TxnRows(t, |CHART|) != []
  {
    var a := t.entries[0].account;
    assert t.entries[0] in t.entries;
    assert Touches(t.entries, a);
    RowsGrow(t, Rank(a) + 1, |CHART|);
  }

  lemma {:induction false} RowsGrow(t: Txn, j: nat, k: nat)
    requires j <= k <= |CHART|
    ensures |TxnRows(t, j)| <= |TxnRows(t, k)|
  {
    if j < k {
      RowsGrow(t, j, k - 1);
    }
  }

  lemma {:induction false} GroupTxn(steps: seq<seq<Summary>>, ledger: seq<Summary>, t: Txn)
    requires OnChart(t.entries) && t.entries != []
    requires !HasId(ledger, t.id)
    requires Grouping(RowsOf(t), ledger, steps)
    ensures steps[|steps| - 1] == ledger + [Summarise(t)]
  {
    GroupOne(steps, ledger, t, |CHART|);
    TouchedRow(t);
    SummedAll(t);
  }

  lemma {:induction false} SummariesKeepIds(txns: seq<Txn>, id: TxnId)
    ensures HasId(Summaries(txns), id) <==> exists i :: 0 <= i < |txns| && txns[i].id == id
  {
    if i :| 0 <= i < |txns| && txns[i].id == id {
      assert Summaries(txns)[i].id == id;
    }
    if HasId(Summaries(txns), id) {
      var i :| 0 <= i < |txns| && Summaries(txns)[i].id == id;
      assert txns[i].id == id;
    }
  }

  /** Grouping the query's rows gives back each transaction once, in order, with
      its summary: no row is lost or added to the wrong transaction. */
  lemma {:induction false} GroupingSummarises(txns: seq<Txn>, steps: seq<seq<Summary>>)
    requires Loadable(txns)
    requires Grouping(Rows(txns), [], steps)
    ensures steps[|steps| - 1] == Summaries(txns)
  {
    hide RowsOf;
    if txns != [] {
      var before, t := txns[..|txns| - 1], txns[|txns| - 1];
      GroupingSplit(Rows(before), RowsOf(t), [], steps);
      GroupingSummarises(before, steps[..|Rows(before)| + 1]);
      SummariesKeepIds(before, t.id);
      GroupTxn(steps[|Rows(before)|..], Summaries(before), t);
    }
  }

  lemma {:induction false} SameIds(xs: seq<Summary>, ys: seq<Summary>)
    requires |xs| == |ys| && forall i :: 0 <= i < |xs| ==> xs[i].id == ys[i].id
    ensures forall id :: HasId(xs, id) <==> HasId(ys, id)
  {
    forall id ensures HasId(xs, id) <==> HasId(ys, id) {
      if HasId(xs, id) {
        var i :| 0 <= i < |xs| && xs[i].id == id;
        assert ys[i].id == id;
      }
      if HasId(ys, id) {
        var i :| 0 <= i < |ys| && ys[i].id == id;
        assert xs[i].id == id;
      }
    }
  }

  /** Where each transaction grouped so far stands. */
  ghost predicate Places(position: map<TxnId, nat>, ledger: seq<Summary>) {
    && (forall id :: id in position <==> HasId(ledger, id))
    && forall id :: id in position ==> position[id] < |ledger| && ledger[position[id]].id == id
  }

  lemma {:induction false} HasIdLast(before: seq<Summary>, t: Summary, id: TxnId)
    ensures HasId(before + [t], id) <==> HasId(before, id) || id == t.id
  {
    var after := before + [t];
    assert after[|before|] == t;
    if HasId(before, id) {
      var i :| 0 <= i < |before| && before[i].id == id;
      assert after[i] == before[i];
    }
  }

  /** One row: a new transaction for an id not seen yet, and then the row's entry. */
  method GroupRow(before: seq<Summary>, position: map<TxnId, nat>, r: Row)
    returns (after: seq<Summary>, position': map<TxnId, nat>)
    requires Places(position, before)
    ensures Groups(before, r, after) && Places(position', after)
  {
    after, position' := before, position;
    if r.id !in position {
      var t := Summary(r.id, r.eventId, r.objectId, r.etype, map[], 0);
      position' := position[r.id := |before|];
      after := before + [t];
      forall id ensures HasId(after, id) <==> HasId(before, id) || id == r.id {
        HasIdLast(before, t, id);
      }
    }
    var i := position'[r.id];
    ghost var grown := after;
    after := after[i := Fold(after[i], r)];
    assert forall j :: 0 <= j < |after| ==> after[j].id == grown[j].id;
    SameIds(after, grown);
  }

  /** The grouping loop of _load_ledger over the query's rows. */
  method LoadLedger(rows: seq<Row>) returns (ledger: seq<Summary>)
    ensures forall txns :: Loadable(txns) && rows == Rows(txns) ==> ledger == Summaries(txns)
  {
    ledger := [];
    var position: map<TxnId, nat> := map[];
    ghost var steps := [ledger];
    for k := 0 to |rows|
      invariant Grouping(rows[..k], [], steps) && steps[k] == ledger
      invariant Places(position, ledger)
    {
      hide Groups, Places;
      ledger, position := GroupRow(ledger, position, rows[k]);
      assert rows[..k + 1][..k] == rows[..k];
      steps := steps + [ledger];
    }
    assert rows[..|rows|] == rows;
    forall txns | Loadable(txns) && rows == Rows(txns) ensures ledger == Summaries(txns) {
      GroupingSummarises(txns, steps);
    }
  }
}
