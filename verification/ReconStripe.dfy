/** reconcile_stripe and its pager (recon/reconciler.py): the ledger against
    Stripe's own list of balance transactions. */
module ReconStripe {
  import opened Wrappers
  import opened Sums
  import opened Ledger
  import opened Mapping
  import opened Recon

  datatype BalanceTxn = BalanceTxn(id: Option<string>, source: Option<string>, amount: int, fee: int)

  datatype Page = Page(data: seq<BalanceTxn>, hasMore: bool)

  // The listing at the time of the crawl: a page for each cursor.
  type Client = Option<string> -> Page

  // ------------------------------------------------------------ the pager --

  function LastId(page: Page): Option<string> {
    if page.data == [] then None else page.data[|page.data| - 1].id
  }

  predicate GoesOn(page: Page) {
    page.hasMore && page.data != [] && LastId(page).Some?
  }

  function PagesOf(client: Client, asked: seq<Option<string>>): seq<BalanceTxn> {
    if asked == [] then []
    else PagesOf(client, asked[..|asked| - 1]) + client(asked[|asked| - 1]).data
  }

  predicate Follows(client: Client, cursor: Option<string>, next: Option<string>) {
    GoesOn(client(cursor)) && next == LastId(client(cursor))
  }

  /** Each cursor asked for is the last id of the page before it. */
  ghost predicate Chained(client: Client, asked: seq<Option<string>>) {
    && asked != [] && asked[0] == None
    && forall i {:trigger Follows(client, asked[i], asked[i + 1])} ::
      0 <= i < |asked| - 1 ==> Follows(client, asked[i], asked[i + 1])
  }

  ghost predicate NoRepeats(asked: seq<Option<string>>) {
    forall i, j :: 0 <= i < j < |asked| ==> asked[i] != asked[j]
  }

  /** A finished crawl: no cursor is asked for twice, and it stops only at the last
      page, at a page without an id to go on from, or at a cursor that does not advance. */
  ghost predicate Crawl(client: Client, asked: seq<Option<string>>) {
    && Chained(client, asked) && NoRepeats(asked)
    && var last := client(asked[|asked| - 1]); !GoesOn(last) || LastId(last) in asked
  }

  /** The pager about to ask for cursor, with the earlier cursors in seen. */
  ghost predicate Paging(client: Client, asked: seq<Option<string>>, cursor: Option<string>, seen: set<string>) {
    var now := asked + [cursor];
    && Chained(client, now) && NoRepeats(now)
    && forall c :: Some(c) in now <==> c in seen
  }

  lemma {:induction false} PagingGrows(
      client: Client, asked: seq<Option<string>>, cursor: Option<string>, next: Option<string>, seen: set<string>)
    requires Paging(client, asked, cursor, seen)
    requires Follows(client, cursor, next) && next.value !in seen
    ensures Paging(client, asked + [cursor], next, seen + {next.value})
  {
    var now := asked + [cursor];
    var more := now + [next];
    forall i | 0 <= i < |more| - 1 ensures Follows(client, more[i], more[i + 1]) {
      if i < |now| - 1 {
        assert Follows(client, now[i], now[i + 1]);
      }
    }
    forall c ensures Some(c) in more <==> c in seen + {next.value} {
      assert Some(c) in more <==> Some(c) in now || Some(c) == next;
    }
    assert next !in now;
  }

  lemma {:induction false} PagingStops(client: Client, asked: seq<Option<string>>, cursor: Option<string>, seen: set<string>)
    requires Paging(client, asked, cursor, seen)
    requires !GoesOn(client(cursor)) || LastId(client(cursor)).value in seen
    ensures Crawl(client, asked + [cursor])
  {
    var now := asked + [cursor];
    if GoesOn(client(cursor)) {
      assert Some(LastId(client(cursor)).value) in now;
    }
  }

  /** known bounds the ids the listing holds: it is finite, so the crawl ends. */
  method IterBalanceTransactions(client: Client, ghost known: set<string>)
    returns (all: seq<BalanceTxn>)
    requires forall c :: GoesOn(client(c)) ==> LastId(client(c)).value in known
    ensures exists asked :: Crawl(client, asked) && all == PagesOf(client, asked)
  {
    var cursor: Option<string> := None;
    var seen: set<string> := {};
    ghost var asked := [];
    all := [];
    while true
      invariant Paging(client, asked, cursor, seen)
      invariant all == PagesOf(client, asked)
      invariant seen <= known
      decreases known - seen
    {
      var page := client(cursor);
      ghost var before := asked;
      asked := before + [cursor];
      assert asked[..|before|] == before;
      all := all + page.data;
      if !page.hasMore || page.data == [] {
        PagingStops(client, before, cursor, seen);
        return;
      }
      var next := page.data[|page.data| - 1].id;
      if next.None? || next.value in seen {
        PagingStops(client, before, cursor, seen);
        return;
      }
      PagingGrows(client, before, cursor, next, seen);
      cursor := next;
      seen := seen + {next.value};
    }
  }

  function CursorAt(all: seq<BalanceTxn>, p: nat): Option<string>
    requires p <= |all|
  {
    if p == 0 then None else all[p - 1].id
  }

  /** The page that starts at p: at least one item if any is left, whatever its size. */
  ghost predicate PageAt(page: Page, all: seq<BalanceTxn>, p: nat) {
    var q := p + |page.data|;
    && q <= |all|
    && page.data == all[p..q]
    && (p < |all| ==> p < q)
    && page.hasMore == (q < |all|)
  }

  ghost predicate Serves(client: Client, all: seq<BalanceTxn>) {
    && (forall i :: 0 <= i < |all| ==> all[i].id.Some?)
    && (forall i, j :: 0 <= i < j < |all| ==> all[i].id != all[j].id)
    && forall p: nat :: p <= |all| ==> PageAt(client(CursorAt(all, p)), all, p)
  }

  lemma {:induction false} ChainedBefore(client: Client, asked: seq<Option<string>>)
    requires Chained(client, asked) && |asked| >= 2
    ensures Chained(client, asked[..|asked| - 1])
    ensures Follows(client, asked[|asked| - 2], asked[|asked| - 1])
  {
    var before, last := asked[..|asked| - 1], |asked| - 2;
    forall i | 0 <= i < |before| - 1 ensures Follows(client, before[i], before[i + 1]) {
      assert Follows(client, asked[i], asked[i + 1]);
    }
    assert Follows(client, asked[last], asked[last + 1]);
  }

  lemma {:induction false} CrawlPrefix(client: Client, all: seq<BalanceTxn>, asked: seq<Option<string>>)
    requires Serves(client, all) && Chained(client, asked)
    ensures var n := |PagesOf(client, asked[..|asked| - 1])|;
      && n <= |all| && asked[|asked| - 1] == CursorAt(all, n)
      && PagesOf(client, asked[..|asked| - 1]) == all[..n]
      && forall c :: c in asked ==> c == None || exists i :: 0 <= i < n && all[i].id == c
  {
    var before := asked[..|asked| - 1];
    if before != [] {
      ChainedBefore(client, asked);
      hide Chained;
      CrawlPrefix(client, all, before);
      var p := |PagesOf(client, before[..|before| - 1])|;
      var page := client(before[|before| - 1]);
      assert PageAt(client(CursorAt(all, p)), all, p);
      var q := p + |page.data|;
      assert all[..p] + all[p..q] == all[..q];
      assert all[q - 1] == page.data[|page.data| - 1];
      forall c | c in asked ensures c == None || exists i :: 0 <= i < q && all[i].id == c {
        if c !in before {
          assert c == asked[|before|] == all[q - 1].id;
        }
      }
    }
  }

  /** Whatever the page sizes, a crawl of a well-behaved listing yields every
      balance transaction once, in order. */
  lemma {:induction false} CrawlYieldsAll(client: Client, all: seq<BalanceTxn>, asked: seq<Option<string>>)
    requires Serves(client, all) && Crawl(client, asked)
    ensures PagesOf(client, asked) == all
  {
    CrawlPrefix(client, all, asked);
    var n := |PagesOf(client, asked[..|asked| - 1])|;
    var page := client(asked[|asked| - 1]);
    assert PageAt(client(CursorAt(all, n)), all, n);
    var q := n + |page.data|;
    assert all[..n] + all[n..q] == all[..q];
    if q < |all| {
      assert false;
    }
    assert all[..|all|] == all;
  }

  // ------------------------------------------------------------- the diff --

  datatype Break =
    | MissingInLedger(bt: BalanceTxn)
    | AmountMismatch(bt: BalanceTxn, txn: Summary, ledgerAmount: int)
    | FeeMismatch(bt: BalanceTxn, txn: Summary, ledgerFee: int)
    | MissingInSource(txn: Summary)
    | InvariantViolation(check: CurrencyCheck)

  /** The ledger's transactions on one object, in ledger order. */
  function Candidates(ledger: seq<Summary>, o: string): seq<Summary> {
    if ledger == [] then []
    else
      var t := ledger[|ledger| - 1];
      Candidates(ledger[..|ledger| - 1], o) + if t.objectId == Some(o) then [t] else []
  }

  /** How many balance transactions name the object as their source. */
  function Count(bts: seq<BalanceTxn>, o: string): nat {
    if bts == [] then 0
    else Count(bts[..|bts| - 1], o) + if bts[|bts| - 1].source == Some(o) then 1 else 0
  }

  /** The j-th balance transaction on an object meets the object's j-th ledger
      transaction, and its first once there are no more. */
  function Partner(ledger: seq<Summary>, source: Option<string>, j: nat): Option<Summary> {
    if source.None? then None
    else
      var c := Candidates(ledger, source.value);
      if c == [] then None else Some(if j < |c| then c[j] else c[0])
  }

  function LedgerFee(t: Summary): int {
    Get(t.delta, ProcessingFees)
  }

  function LedgerAmount(t: Summary): int {
    Get(t.delta, StripeBalance) + LedgerFee(t)
  }

  function Compare(bt: BalanceTxn, partner: Option<Summary>): seq<Break> {
    match partner
    case None => [MissingInLedger(bt)]
    case Some(t) =>
      (if LedgerAmount(t) != bt.amount then [AmountMismatch(bt, t, LedgerAmount(t))] else [])
      + if LedgerFee(t) != bt.fee then [FeeMismatch(bt, t, LedgerFee(t))] else []
  }

  function SourceRank(before: seq<BalanceTxn>, bt: BalanceTxn): nat {
    if bt.source.Some? then Count(before, bt.source.value) else 0
  }

  function Forward(ledger: seq<Summary>, bts: seq<BalanceTxn>): seq<Break> {
    if bts == [] then []
    else
      var before, bt := bts[..|bts| - 1], bts[|bts| - 1];
      Forward(ledger, before) + Compare(bt, Partner(ledger, bt.source, SourceRank(before, bt)))
  }

  /** The ledger's transactions beyond what Stripe lists for their object. */
  function Leftover(ledger: seq<Summary>, bts: seq<BalanceTxn>): seq<Summary> {
    if ledger == [] then []
    else
      var before, t := ledger[..|ledger| - 1], ledger[|ledger| - 1];
      Leftover(before, bts) +
      if t.objectId.Some? && Count(bts, t.objectId.value) <= |Candidates(before, t.objectId.value)| then [t] else []
  }

  function Backward(left: seq<Summary>): seq<Break> {
    if left == [] then [] else Backward(left[..|left| - 1]) + [MissingInSource(left[|left| - 1])]
  }

  function Report(ledger: seq<Summary>, bts: seq<BalanceTxn>, inv: CurrencyCheck): seq<Break> {
    Forward(ledger, bts) + Backward(Leftover(ledger, bts)) + if inv.Ok() then [] else [InvariantViolation(inv)]
  }

  ghost predicate UniqueIds(ledger: seq<Summary>) {
    forall i, j :: 0 <= i < j < |ledger| ==> ledger[i].id != ledger[j].id
  }

  lemma {:induction false} CandidatesLast(before: seq<Summary>, t: Summary, o: string)
    ensures Candidates(before + [t], o) == Candidates(before, o) + if t.objectId == Some(o) then [t] else []
  {
    assert (before + [t])[..|before|] == before;
  }

  /** The index by object holds each object's transactions, in ledger order. */
  ghost predicate Grouped(groups: map<string, seq<Summary>>, ledger: seq<Summary>) {
    forall o :: (if o in groups then groups[o] else []) == Candidates(ledger, o)
  }

  lemma {:induction false} GroupedStep(groups: map<string, seq<Summary>>, before: seq<Summary>, t: Summary)
    requires Grouped(groups, before)
    ensures t.objectId.None? ==> Grouped(groups, before + [t])
    ensures t.objectId.Some? ==>
      var o := t.objectId.value; Grouped(groups[o := (if o in groups then groups[o] else []) + [t]], before + [t])
  {
    hide Candidates;
    forall o ensures Candidates(before + [t], o) == Candidates(before, o) + if t.objectId == Some(o) then [t] else [] {
      CandidatesLast(before, t, o);
    }
  }

  method GroupByObject(ledger: seq<Summary>) returns (groups: map<string, seq<Summary>>)
    ensures Grouped(groups, ledger)
  {
    groups := map[];
    for i := 0 to |ledger|
      invariant Grouped(groups, ledger[..i])
    {
      hide Grouped;
      var t := ledger[i];
      assert ledger[..i + 1] == ledger[..i] + [t];
      GroupedStep(groups, ledger[..i], t);
      if t.objectId.Some? {
        var o := t.objectId.value;
        groups := groups[o := (if o in groups then groups[o] else []) + [t]];
      }
    }
    assert ledger[..|ledger|] == ledger;
  }

  lemma {:induction false} CandidateIn(ledger: seq<Summary>, o: string, j: nat)
    requires j < |Candidates(ledger, o)|
    ensures Candidates(ledger, o)[j] in ledger && Candidates(ledger, o)[j].objectId == Some(o)
  {
    var before := ledger[..|ledger| - 1];
    if j < |Candidates(before, o)| {
      CandidateIn(before, o, j);
    }
  }

  lemma {:induction false} CandidateIds(ledger: seq<Summary>, o: string, j: nat, k: nat)
    requires UniqueIds(ledger)
    requires j < k < |Candidates(ledger, o)|
    ensures Candidates(ledger, o)[j].id != Candidates(ledger, o)[k].id
  {
    var before := ledger[..|ledger| - 1];
    if k < |Candidates(before, o)| {
      CandidateIds(before, o, j, k);
    } else {
      CandidateIn(before, o, j);
    }
  }

  lemma {:induction false} IdsTellObjects(ledger: seq<Summary>, o: string, j: nat, p: string, k: nat)
    requires UniqueIds(ledger)
    requires j < |Candidates(ledger, o)| && k < |Candidates(ledger, p)|
    requires Candidates(ledger, o)[j].id == Candidates(ledger, p)[k].id
    ensures o == p && j == k
  {
    CandidateIn(ledger, o, j);
    CandidateIn(ledger, p, k);
    if j < k {
      CandidateIds(ledger, o, j, k);
    } else if k < j {
      CandidateIds(ledger, o, k, j);
    }
  }

  lemma {:induction false} CandidatesGrow(ledger: seq<Summary>, i: nat, o: string)
    requires i <= |ledger|
    ensures Candidates(ledger[..i], o) <= Candidates(ledger, o)
    decreases |ledger| - i
  {
    if i < |ledger| {
      assert ledger[..i + 1][..i] == ledger[..i];
      CandidatesGrow(ledger, i + 1, o);
    } else {
      assert ledger[..i] == ledger;
    }
  }

  /** Which ledger transactions are matched after the balance transactions so far. */
  ghost predicate MatchedSoFar(ledger: seq<Summary>, bts: seq<BalanceTxn>, matched: set<TxnId>) {
    forall o, j :: 0 <= j < |Candidates(ledger, o)| ==>
      (Candidates(ledger, o)[j].id in matched <==> j < Count(bts, o))
  }

  ghost predicate FirstAt(candidates: seq<Summary>, matched: set<TxnId>, k: int) {
    && 0 <= k < |candidates| && candidates[k].id !in matched
    && forall j :: 0 <= j < k ==> candidates[j].id in matched
  }

  method FirstUnmatched(candidates: seq<Summary>, matched: set<TxnId>) returns (r: Option<Summary>)
    ensures r.None? ==> forall c :: c in candidates ==> c.id in matched
    ensures r.Some? ==> exists k :: FirstAt(candidates, matched, k) && r.value == candidates[k]
  {
    for k := 0 to |candidates|
      invariant forall j :: 0 <= j < k ==> candidates[j].id in matched
    {
      if candidates[k].id !in matched {
        assert FirstAt(candidates, matched, k);
        return Some(candidates[k]);
      }
    }
    return None;
  }

  method Choose(ghost ledger: seq<Summary>, ghost before: seq<BalanceTxn>, ghost source: Option<string>,
                candidates: seq<Summary>, matched: set<TxnId>)
    returns (txn: Option<Summary>)
    requires source.Some? ==> candidates == Candidates(ledger, source.value)
    requires source.None? ==> candidates == []
    requires MatchedSoFar(ledger, before, matched)
    ensures txn == Partner(ledger, source, if source.Some? then Count(before, source.value) else 0)
  {
    txn := FirstUnmatched(candidates, matched);
    if txn.None? && candidates != [] {
      assert candidates[|candidates| - 1] in candidates;
      assert source.Some? && Candidates(ledger, source.value)[|candidates| - 1].id in matched;
      txn := Some(candidates[0]);
    }
  }

  lemma {:induction false} MatchStep(ledger: seq<Summary>, before: seq<BalanceTxn>, bt: BalanceTxn, matched: set<TxnId>)
    requires UniqueIds(ledger) && MatchedSoFar(ledger, before, matched)
    ensures var txn := Partner(ledger, bt.source, SourceRank(before, bt));
      MatchedSoFar(ledger, before + [bt], if txn.Some? then matched + {txn.value.id} else matched)
  {
    var after := before + [bt];
    assert after[..|before|] == before;
    var txn := Partner(ledger, bt.source, SourceRank(before, bt));
    if txn.Some? {
      var s := bt.source.value;
      var c := Candidates(ledger, s);
      var k := if SourceRank(before, bt) < |c| then SourceRank(before, bt) else 0;
      forall o, j | 0 <= j < |Candidates(ledger, o)|
        ensures Candidates(ledger, o)[j].id in matched + {txn.value.id} <==> j < Count(after, o)
      {
        if Candidates(ledger, o)[j].id == c[k].id {
          IdsTellObjects(ledger, o, j, s, k);
        }
      }
    }
  }

  lemma {:induction false} OwnRank(ledger: seq<Summary>, i: nat, o: string)
    requires i < |ledger| && ledger[i].objectId == Some(o)
    ensures var k := |Candidates(ledger[..i], o)|;
      k < |Candidates(ledger, o)| && Candidates(ledger, o)[k] == ledger[i]
  {
    assert ledger[..i + 1][..i] == ledger[..i];
    CandidatesGrow(ledger, i + 1, o);
  }

  method CompareAmounts(bt: BalanceTxn, txn: Summary) returns (breaks: seq<Break>)
    ensures breaks == Compare(bt, Some(txn))
  {
    breaks := [];
    var fee := LedgerFee(txn);
    var amount := LedgerAmount(txn);
    if amount != bt.amount {
      breaks := breaks + [AmountMismatch(bt, txn, amount)];
    }
    if fee != bt.fee {
      breaks := breaks + [FeeMismatch(bt, txn, fee)];
    }
  }

  lemma {:induction false} ForwardLast(ledger: seq<Summary>, before: seq<BalanceTxn>, bt: BalanceTxn)
    ensures Forward(ledger, before + [bt]) ==
      Forward(ledger, before) + Compare(bt, Partner(ledger, bt.source, SourceRank(before, bt)))
  {
    assert (before + [bt])[..|before|] == before;
  }

  /** One balance transaction against the ledger: its partner is the first candidate not
      yet matched, or the first of all. */
  method CompareOne(ghost ledger: seq<Summary>, ghost before: seq<BalanceTxn>, bt: BalanceTxn,
                    byObject: map<string, seq<Summary>>, matched: set<TxnId>)
    returns (breaks: seq<Break>, matched': set<TxnId>)
    requires UniqueIds(ledger) && Grouped(byObject, ledger) && MatchedSoFar(ledger, before, matched)
    ensures breaks == Compare(bt, Partner(ledger, bt.source, SourceRank(before, bt)))
    ensures MatchedSoFar(ledger, before + [bt], matched')
  {
    hide Candidates, Count, MatchedSoFar, UniqueIds, LedgerAmount, LedgerFee, Partner;
    MatchStep(ledger, before, bt, matched);
    var candidates := if bt.source.Some? && bt.source.value in byObject then byObject[bt.source.value] else [];
    var txn := Choose(ledger, before, bt.source, candidates, matched);
    if txn.None? {
      return [MissingInLedger(bt)], matched;
    }
    matched' := matched + {txn.value.id};
    breaks := CompareAmounts(bt, txn.value);
  }

  method CompareForward(ledger: seq<Summary>, bts: seq<BalanceTxn>)
    returns (breaks: seq<Break>, matched: set<TxnId>, checked: nat)
    requires UniqueIds(ledger)
    ensures breaks == Forward(ledger, bts)
    ensures MatchedSoFar(ledger, bts, matched)
    ensures checked == |bts|
  {
    var byObject := GroupByObject(ledger);
    breaks, matched, checked := [], {}, 0;
    for i := 0 to |bts|
      invariant checked == i
      invariant breaks == Forward(ledger, bts[..i])
      invariant MatchedSoFar(ledger, bts[..i], matched)
    {
      hide *;
      checked := checked + 1;
      assert bts[..i + 1] == bts[..i] + [bts[i]];
      ForwardLast(ledger, bts[..i], bts[i]);
      var differing;
      differing, matched := CompareOne(ledger, bts[..i], bts[i], byObject, matched);
      breaks := breaks + differing;
    }
    assert bts[..|bts|] == bts;
  }

  method ReportUnmatched(ledger: seq<Summary>, ghost bts: seq<BalanceTxn>, matched: set<TxnId>) returns (breaks: seq<Break>)
    requires MatchedSoFar(ledger, bts, matched)
    ensures breaks == Backward(Leftover(ledger, bts))
  {
    breaks := [];
    for i := 0 to |ledger|
      invariant breaks == Backward(Leftover(ledger[..i], bts))
    {
      var t := ledger[i];
      assert ledger[..i + 1][..i] == ledger[..i];
      ghost var left := Leftover(ledger[..i], bts);
      if t.objectId.Some? {
        OwnRank(ledger, i, t.objectId.value);
      }
      if t.objectId.None? || t.id in matched {
        assert Leftover(ledger[..i + 1], bts) == left;
        continue;
      }
      assert (left + [t])[..|left|] == left;
      assert Leftover(ledger[..i + 1], bts) == left + [t];
      breaks := breaks + [MissingInSource(t)];
    }
    assert ledger[..|ledger|] == ledger;
  }

  // ------------------------------------------------- what a report says --

  /** t is the ledger transaction that the k-th balance transaction is held against: the
      one of its rank on the object, or the object's first once there are no more. */
  ghost predicate HeldAgainst(ledger: seq<Summary>, bts: seq<BalanceTxn>, k: nat, t: Summary)
    requires k < |bts|
  {
    && bts[k].source.Some?
    && var own, rank := Candidates(ledger, bts[k].source.value), Count(bts[..k], bts[k].source.value);
    own != [] && t == own[if rank < |own| then rank else 0]
  }

  ghost predicate Unheard(ledger: seq<Summary>, bt: BalanceTxn) {
    bt.source.None? || forall t :: t in ledger ==> t.objectId != bt.source
  }

  /** What the k-th balance transaction gives rise to, in its own and the ledger's numbers. */
  ghost predicate SaidOf(ledger: seq<Summary>, bts: seq<BalanceTxn>, k: nat, b: Break)
    requires k < |bts|
  {
    match b
    case MissingInLedger(bt) => bt == bts[k] && Unheard(ledger, bt)
    case AmountMismatch(bt, t, amount) =>
      && bt == bts[k] && HeldAgainst(ledger, bts, k, t)
      && amount == Get(t.delta, StripeBalance) + Get(t.delta, ProcessingFees) && amount != bt.amount
    case FeeMismatch(bt, t, fee) =>
      && bt == bts[k] && HeldAgainst(ledger, bts, k, t)
      && fee == Get(t.delta, ProcessingFees) && fee != bt.fee
    case _ => false
  }

  /** A ledger transaction past what Stripe lists for its object. */
  ghost predicate Unlisted(ledger: seq<Summary>, bts: seq<BalanceTxn>, i: nat)
    requires i < |ledger|
  {
    ledger[i].objectId.Some? &&
    Count(bts, ledger[i].objectId.value) <= |Candidates(ledger[..i], ledger[i].objectId.value)|
  }

  /** Every break of a report, and nothing else. */
  ghost predicate Says(ledger: seq<Summary>, bts: seq<BalanceTxn>, inv: CurrencyCheck, b: Break) {
    match b
    case MissingInSource(t) => exists i: nat :: i < |ledger| && Unlisted(ledger, bts, i) && ledger[i] == t
    case InvariantViolation(check) => check == inv && inv.sumDebitNormal != inv.sumCreditNormal
    case _ => exists k: nat :: k < |bts| && SaidOf(ledger, bts, k, b)
  }

  lemma {:induction false} CandidatesAre(ledger: seq<Summary>, o: string, t: Summary)
    ensures t in Candidates(ledger, o) <==> t in ledger && t.objectId == Some(o)
  {
    if ledger != [] {
      var before, last := ledger[..|ledger| - 1], ledger[|ledger| - 1];
      assert ledger == before + [last];
      CandidatesAre(before, o, t);
    }
  }

  /** How many on an object: one for each transaction that names it. */
  lemma {:induction false} RanksCount(ledger: seq<Summary>, bts: seq<BalanceTxn>, o: string)
    ensures |Candidates(ledger, o)| == Sum(ledger, (t: Summary) => if t.objectId == Some(o) then 1 else 0)
    ensures Count(bts, o) == Sum(bts, (bt: BalanceTxn) => if bt.source == Some(o) then 1 else 0)
    decreases |ledger| + |bts|
  {
    if ledger != [] {
      RanksCount(ledger[..|ledger| - 1], [], o);
    }
    if bts != [] {
      RanksCount([], bts[..|bts| - 1], o);
    }
  }

  lemma {:induction false} NoneUnheard(ledger: seq<Summary>, bt: BalanceTxn)
    requires bt.source.Some?
    ensures Candidates(ledger, bt.source.value) == [] <==> Unheard(ledger, bt)
  {
    var own := Candidates(ledger, bt.source.value);
    if own != [] {
      CandidatesAre(ledger, bt.source.value, own[0]);
    }
    forall t | own == [] && t in ledger ensures t.objectId != bt.source {
      CandidatesAre(ledger, bt.source.value, t);
    }
  }

  lemma {:induction false} CompareSays(ledger: seq<Summary>, bts: seq<BalanceTxn>, k: nat, b: Break)
    requires k < |bts|
    ensures b in Compare(bts[k], Partner(ledger, bts[k].source, SourceRank(bts[..k], bts[k]))) <==> SaidOf(ledger, bts, k, b)
  {
    hide Candidates, Count;
    if bts[k].source.Some? {
      NoneUnheard(ledger, bts[k]);
    }
  }

  lemma {:induction false} ForwardSays(ledger: seq<Summary>, bts: seq<BalanceTxn>, n: nat, b: Break)
    requires n <= |bts|
    ensures b in Forward(ledger, bts[..n]) <==> exists k: nat :: k < n && SaidOf(ledger, bts, k, b)
  {
    hide SaidOf;
    if n > 0 {
      hide Compare, Partner, SourceRank, Forward;
      assert bts[..n] == bts[..n - 1] + [bts[n - 1]];
      ForwardLast(ledger, bts[..n - 1], bts[n - 1]);
      ForwardSays(ledger, bts, n - 1, b);
      CompareSays(ledger, bts, n - 1, b);
    }
  }

  lemma {:induction false} LastLeftover(ledger: seq<Summary>, bts: seq<BalanceTxn>, i: nat)
    requires i < |ledger|
    ensures Leftover(ledger[..i] + [ledger[i]], bts) ==
      Leftover(ledger[..i], bts) + if Unlisted(ledger, bts, i) then [ledger[i]] else []
  {
    hide Leftover, Candidates, Count;
    LeftoverLast(ledger[..i], ledger[i], bts);
  }

  lemma {:induction false} LeftoverSays(ledger: seq<Summary>, bts: seq<BalanceTxn>, n: nat, t: Summary)
    requires n <= |ledger|
    ensures t in Leftover(ledger[..n], bts) <==> exists i: nat :: i < n && Unlisted(ledger, bts, i) && ledger[i] == t
  {
    if n > 0 {
      hide Leftover, Candidates, Count, Unlisted;
      assert ledger[..n] == ledger[..n - 1] + [ledger[n - 1]];
      LastLeftover(ledger, bts, n - 1);
      LeftoverSays(ledger, bts, n - 1, t);
    }
  }

  lemma {:induction false} BackwardSays(left: seq<Summary>, b: Break)
    ensures b in Backward(left) <==> b.MissingInSource? && b.txn in left
  {
    if left != [] {
      var before, last := left[..|left| - 1], left[|left| - 1];
      assert left == before + [last];
      BackwardSays(before, b);
    }
  }

  /** The report and what it says are one thing. */
  lemma {:induction false} ReportSays(ledger: seq<Summary>, bts: seq<BalanceTxn>, inv: CurrencyCheck, b: Break)
    ensures b in Report(ledger, bts, inv) <==> Says(ledger, bts, inv, b)
  {
    hide Forward, Backward, Leftover, Unlisted;
    assert bts[..|bts|] == bts && ledger[..|ledger|] == ledger;
    ForwardSays(ledger, bts, |bts|, b);
    BackwardSays(Leftover(ledger, bts), b);
    if b.MissingInSource? {
      LeftoverSays(ledger, bts, |ledger|, b.txn);
    }
  }

  /** Silence means agreement: where the comparison with Stripe's list finds nothing, each
      balance transaction names an object the ledger holds, and amount and fee are those
      the ledger booked for it. */
  lemma {:induction false} SilenceMeansAgreement(ledger: seq<Summary>, bts: seq<BalanceTxn>, inv: CurrencyCheck, k: nat)
    requires k < |bts| && forall b :: b in Report(ledger, bts, inv) ==> !b.MissingInLedger? && !b.AmountMismatch? && !b.FeeMismatch?
    ensures bts[k].source.Some? && exists t ::
      t in ledger && t.objectId == bts[k].source && HeldAgainst(ledger, bts, k, t)
      && Get(t.delta, ProcessingFees) == bts[k].fee
      && Get(t.delta, StripeBalance) + Get(t.delta, ProcessingFees) == bts[k].amount
  {
    hide Report, Candidates, Count, Unheard;
    var bt := bts[k];
    ReportSays(ledger, bts, inv, MissingInLedger(bt));
    assert SaidOf(ledger, bts, k, MissingInLedger(bt)) <==> Unheard(ledger, bt);
    Heard(ledger, bt);
    var own, rank := Candidates(ledger, bt.source.value), Count(bts[..k], bt.source.value);
    var t := own[if rank < |own| then rank else 0];
    CandidatesAre(ledger, bt.source.value, t);
    var amount, fee := Get(t.delta, StripeBalance) + Get(t.delta, ProcessingFees), Get(t.delta, ProcessingFees);
    ReportSays(ledger, bts, inv, AmountMismatch(bt, t, amount));
    ReportSays(ledger, bts, inv, FeeMismatch(bt, t, fee));
    assert SaidOf(ledger, bts, k, AmountMismatch(bt, t, amount)) <==> amount != bt.amount;
    assert SaidOf(ledger, bts, k, FeeMismatch(bt, t, fee)) <==> fee != bt.fee;
  }

  lemma {:induction false} Heard(ledger: seq<Summary>, bt: BalanceTxn)
    requires !Unheard(ledger, bt)
    ensures bt.source.Some? && Candidates(ledger, bt.source.value) != []
  {
    NoneUnheard(ledger, bt);
  }

  ghost predicate ReportsCrawl(
      ledger: seq<Summary>, client: Client, inv: CurrencyCheck, asked: seq<Option<string>>, breaks: seq<Break>, checked: nat) {
    && Crawl(client, asked)
    && breaks == Report(ledger, PagesOf(client, asked), inv)
    && checked == |PagesOf(client, asked)|
  }

  method ReconcileStripe(ledger: seq<Summary>, client: Client, ghost known: set<string>, inv: CurrencyCheck)
    returns (breaks: seq<Break>, checked: nat, invariantOk: bool)
    requires UniqueIds(ledger)
    requires forall c :: GoesOn(client(c)) ==> LastId(client(c)).value in known
    ensures exists asked :: ReportsCrawl(ledger, client, inv, asked, breaks, checked)
    ensures forall all :: Serves(client, all) ==> breaks == Report(ledger, all, inv) && checked == |all|
    ensures forall all, b :: Serves(client, all) ==> (b in breaks <==> Says(ledger, all, inv, b))
    ensures invariantOk <==> inv.sumDebitNormal == inv.sumCreditNormal
  {
    var bts := IterBalanceTransactions(client, known);
    ghost var asked :| Crawl(client, asked) && bts == PagesOf(client, asked);
    var matched;
    breaks, matched, checked := CompareForward(ledger, bts);
    var left := ReportUnmatched(ledger, bts, matched);
    breaks := breaks + left;
    invariantOk := inv.Ok();
    if !invariantOk {
      breaks := breaks + [InvariantViolation(inv)];
    }
    assert ReportsCrawl(ledger, client, inv, asked, breaks, checked);
    forall all | Serves(client, all) ensures breaks == Report(ledger, all, inv) && checked == |all| {
      CrawlYieldsAll(client, all, asked);
    }
    forall all, b | Serves(client, all) ensures b in breaks <==> Says(ledger, all, inv, b) {
      ReportSays(ledger, all, inv, b);
    }
  }

  // ------------------------------------------------------ how many breaks --

  function MissingInSourceOn(breaks: seq<Break>, o: string): nat {
    if breaks == [] then 0
    else
      var b := breaks[|breaks| - 1];
      MissingInSourceOn(breaks[..|breaks| - 1], o) + if b.MissingInSource? && b.txn.objectId == Some(o) then 1 else 0
  }

  function MissingInLedgerOn(breaks: seq<Break>, o: string): nat {
    if breaks == [] then 0
    else
      var b := breaks[|breaks| - 1];
      MissingInLedgerOn(breaks[..|breaks| - 1], o) + if b.MissingInLedger? && b.bt.source == Some(o) then 1 else 0
  }

  lemma {:induction false} CountsConcat(xs: seq<Break>, ys: seq<Break>, o: string)
    ensures MissingInSourceOn(xs + ys, o) == MissingInSourceOn(xs, o) + MissingInSourceOn(ys, o)
    ensures MissingInLedgerOn(xs + ys, o) == MissingInLedgerOn(xs, o) + MissingInLedgerOn(ys, o)
  {
    if ys == [] {
      assert xs + ys == xs;
    } else {
      assert (xs + ys)[..|xs + ys| - 1] == xs + ys[..|ys| - 1];
      CountsConcat(xs, ys[..|ys| - 1], o);
    }
  }

  lemma {:induction false} CountsLast(xs: seq<Break>, b: Break, o: string)
    ensures MissingInSourceOn(xs + [b], o) ==
      MissingInSourceOn(xs, o) + if b.MissingInSource? && b.txn.objectId == Some(o) then 1 else 0
    ensures MissingInLedgerOn(xs + [b], o) ==
      MissingInLedgerOn(xs, o) + if b.MissingInLedger? && b.bt.source == Some(o) then 1 else 0
  {
    assert (xs + [b])[..|xs|] == xs;
  }

  lemma {:induction false} CompareCounts(bt: BalanceTxn, partner: Option<Summary>, o: string)
    ensures MissingInSourceOn(Compare(bt, partner), o) == 0
    ensures MissingInLedgerOn(Compare(bt, partner), o) == if partner.None? && bt.source == Some(o) then 1 else 0
  {
    match partner
    case None => CountsOfOne(MissingInLedger(bt), o);
    case Some(t) =>
      var amount := if LedgerAmount(t) != bt.amount then [AmountMismatch(bt, t, LedgerAmount(t))] else [];
      var fee := if LedgerFee(t) != bt.fee then [FeeMismatch(bt, t, LedgerFee(t))] else [];
      CountsOfOne(AmountMismatch(bt, t, LedgerAmount(t)), o);
      CountsOfOne(FeeMismatch(bt, t, LedgerFee(t)), o);
      CountsConcat(amount, fee, o);
  }

  lemma {:induction false} CountsOfOne(b: Break, o: string)
    ensures MissingInSourceOn([b], o) == if b.MissingInSource? && b.txn.objectId == Some(o) then 1 else 0
    ensures MissingInLedgerOn([b], o) == if b.MissingInLedger? && b.bt.source == Some(o) then 1 else 0
  {
    assert [b] == [] + [b];
    CountsLast([], b, o);
  }

  lemma {:induction false} ForwardCounts(ledger: seq<Summary>, bts: seq<BalanceTxn>, o: string)
    ensures MissingInSourceOn(Forward(ledger, bts), o) == 0
    ensures MissingInLedgerOn(Forward(ledger, bts), o) == if Candidates(ledger, o) == [] then Count(bts, o) else 0
  {
    if bts != [] {
      var before, bt := bts[..|bts| - 1], bts[|bts| - 1];
      ForwardCounts(ledger, before, o);
      var partner := Partner(ledger, bt.source, SourceRank(before, bt));
      CompareCounts(bt, partner, o);
      CountsConcat(Forward(ledger, before), Compare(bt, partner), o);
    }
  }

  lemma {:induction false} BackwardLast(left: seq<Summary>, t: Summary, o: string)
    ensures MissingInSourceOn(Backward(left + [t]), o) ==
      MissingInSourceOn(Backward(left), o) + if t.objectId == Some(o) then 1 else 0
    ensures MissingInLedgerOn(Backward(left + [t]), o) == MissingInLedgerOn(Backward(left), o)
  {
    assert (left + [t])[..|left|] == left;
    CountsLast(Backward(left), MissingInSource(t), o);
  }

  /** One more ledger transaction: left over exactly when its rank on its object is past
      what Stripe lists. */
  lemma {:induction false} LeftoverLast(before: seq<Summary>, t: Summary, bts: seq<BalanceTxn>)
    ensures Leftover(before + [t], bts) == Leftover(before, bts) +
      if t.objectId.Some? && Count(bts, t.objectId.value) <= |Candidates(before, t.objectId.value)| then [t] else []
  {
    assert (before + [t])[..|before|] == before;
  }

  lemma {:induction false} BackwardCounts(ledger: seq<Summary>, bts: seq<BalanceTxn>, o: string)
    ensures MissingInSourceOn(Backward(Leftover(ledger, bts)), o) ==
      if |Candidates(ledger, o)| > Count(bts, o) then |Candidates(ledger, o)| - Count(bts, o) else 0
    ensures MissingInLedgerOn(Backward(Leftover(ledger, bts)), o) == 0
  {
    if ledger != [] {
      hide *;
      var before, t := ledger[..|ledger| - 1], ledger[|ledger| - 1];
      assert ledger == before + [t];
      BackwardCounts(before, bts, o);
      LeftoverLast(before, t, bts);
      CandidatesLast(before, t, o);
      var left := Leftover(before, bts);
      if t.objectId.Some? && Count(bts, t.objectId.value) <= |Candidates(before, t.objectId.value)| {
        BackwardLast(left, t, o);
      } else {
        assert Leftover(ledger, bts) == left;
      }
    }
  }

  /** How many of an object's ledger transactions are in the matched set. */
  function NumberMatched(candidates: seq<Summary>, matched: set<TxnId>): nat {
    if candidates == [] then 0
    else
      NumberMatched(candidates[..|candidates| - 1], matched) + if candidates[|candidates| - 1].id in matched then 1 else 0
  }

  lemma {:induction false} PrefixMatched(candidates: seq<Summary>, matched: set<TxnId>, k: nat)
    requires forall j :: 0 <= j < |candidates| ==> (candidates[j].id in matched <==> j < k)
    ensures NumberMatched(candidates, matched) == if |candidates| < k then |candidates| else k
  {
    if candidates != [] {
      PrefixMatched(candidates[..|candidates| - 1], matched, k);
    }
  }

  lemma {:induction false} CheckCounts(inv: CurrencyCheck, o: string)
    ensures var last := if inv.Ok() then [] else [InvariantViolation(inv)];
      MissingInSourceOn(last, o) == 0 && MissingInLedgerOn(last, o) == 0
  {
    CountsOfOne(InvariantViolation(inv), o);
  }

  lemma {:induction false} ReportCounts(ledger: seq<Summary>, bts: seq<BalanceTxn>, inv: CurrencyCheck, o: string)
    ensures var report, forward, backward := Report(ledger, bts, inv), Forward(ledger, bts), Backward(Leftover(ledger, bts));
      && MissingInSourceOn(report, o) == MissingInSourceOn(forward, o) + MissingInSourceOn(backward, o)
      && MissingInLedgerOn(report, o) == MissingInLedgerOn(forward, o) + MissingInLedgerOn(backward, o)
  {
    hide Forward, Backward, Leftover, MissingInSourceOn, MissingInLedgerOn;
    var forward, backward := Forward(ledger, bts), Backward(Leftover(ledger, bts));
    var last := if inv.Ok() then [] else [InvariantViolation(inv)];
    CheckCounts(inv, o);
    CountsConcat(forward, backward, o);
    CountsConcat(forward + backward, last, o);
  }

  /** For an object with m ledger transactions and k balance transactions, the
      matched set the loop ends with holds min(m, k) of them; the report says k times
      that the ledger lacks the object if m = 0, and otherwise never; and max(0, m - k)
      times that Stripe lacks it. */
  lemma {:induction false} BreakCounts(ledger: seq<Summary>, bts: seq<BalanceTxn>, inv: CurrencyCheck, o: string, matched: set<TxnId>)
    requires MatchedSoFar(ledger, bts, matched)
    ensures var m, k, report := |Candidates(ledger, o)|, Count(bts, o), Report(ledger, bts, inv);
      && NumberMatched(Candidates(ledger, o), matched) == (if m < k then m else k)
      && MissingInLedgerOn(report, o) == (if m == 0 then k else 0)
      && MissingInSourceOn(report, o) == (if m > k then m - k else 0)
  {
    PrefixMatched(Candidates(ledger, o), matched, Count(bts, o));
    hide *;
    ReportCounts(ledger, bts, inv, o);
    ForwardCounts(ledger, bts, o);
    BackwardCounts(ledger, bts, o);
  }

  // -------------------------------------- a mapped ledger has no breaks --

  /** What Stripe lists for a movement: its change to the Stripe balance before the
      fee, and the fee. */
  function Counterpart(etype: EventType, m: Movement): (int, int) {
    match etype
    case ChargeSucceeded | PaymentIntentSucceeded => (m.amount, m.fee)
    case ChargeRefunded => (-m.amount, 0)
    case DisputeCreated => (-m.amount, m.fee)
    case _ => (-m.amount, 0)
  }

  ghost predicate Mirrors(bt: BalanceTxn, e: Event, feeMinor: Option<int>) {
    && e.data.Some? && Amounts(e.etype, e.data.value, feeMinor).Ok?
    && bt.source == MoneyObjectId(e)
    && (bt.amount, bt.fee) == Counterpart(e.etype, Amounts(e.etype, e.data.value, feeMinor).value)
  }

  ghost predicate Built(t: Txn, e: Event, feeMinor: Option<int>) {
    Build(e, feeMinor) == Ok(Some(t))
  }

  lemma {:induction false} CounterpartOn(a: Account, etype: EventType, m: Movement, currency: string)
    requires Mapped(etype) && (a == ProcessingFees || a == StripeBalance)
    ensures Balance(a, Entries(etype, m, currency)) ==
      if a == ProcessingFees then Counterpart(etype, m).1 else Counterpart(etype, m).0 - Counterpart(etype, m).1
  {
    hide Balance;
    match etype
    case ChargeSucceeded | PaymentIntentSucceeded =>
      ThreeLegs(a, StripeBalance, Debit, m.amount - m.fee, ProcessingFees, Debit, m.fee, Revenue, Credit, m.amount, currency);
    case DisputeCreated =>
      ThreeLegs(a, DisputeLosses, Debit, m.amount, ProcessingFees, Debit, m.fee, StripeBalance, Credit, m.amount + m.fee, currency);
    case ChargeRefunded =>
      TwoLegs(a, RefundsContra, StripeBalance, m.amount, currency);
    case _ =>
      TwoLegs(a, Bank, StripeBalance, m.amount, currency);
  }

  /** net = amount - fee, for every event type, amount and fee. */
  lemma {:induction false} NetIsAmountMinusFee(etype: EventType, m: Movement, currency: string)
    requires Mapped(etype)
    ensures var es := Entries(etype, m, currency);
      && Balance(ProcessingFees, es) == Counterpart(etype, m).1
      && Balance(StripeBalance, es) == Counterpart(etype, m).0 - Counterpart(etype, m).1
  {
    CounterpartOn(ProcessingFees, etype, m, currency);
    CounterpartOn(StripeBalance, etype, m, currency);
  }

  ghost predicate Meets(bt: BalanceTxn, t: Summary) {
    bt.source == t.objectId && Compare(bt, Some(t)) == []
  }

  /** A ledger transaction agrees with its counterpart on object, amount and fee. */
  lemma {:induction false} MirroredAgrees(t: Txn, e: Event, feeMinor: Option<int>, bt: BalanceTxn)
    requires Built(t, e, feeMinor) && Mirrors(bt, e, feeMinor)
    ensures Meets(bt, Summarise(t))
  {
    hide Balance, Amounts, Entries, Counterpart;
    NetIsAmountMinusFee(e.etype, Amounts(e.etype, e.data.value, feeMinor).value, Upper(e.data.value.currency.value));
    var bal := AllBalances(t.entries);
    assert Get(NonZero(bal), ProcessingFees) == bal[ProcessingFees];
    assert Get(NonZero(bal), StripeBalance) == bal[StripeBalance];
  }

  /** The ledger holds one mapped transaction per event, the events move distinct
      objects, and Stripe lists each movement once, in whatever order. */
  ghost predicate Mirrored(txns: seq<Txn>, events: seq<Event>, fees: Event -> Option<int>, bts: seq<BalanceTxn>) {
    && |txns| == |events|
    && (forall i :: 0 <= i < |txns| ==> Built(txns[i], events[i], fees(events[i])) && txns[i].objectId.Some?)
    && (forall i, j :: 0 <= i < j < |txns| ==> txns[i].objectId != txns[j].objectId)
    && (forall i, j :: 0 <= i < j < |bts| ==> bts[i].source != bts[j].source)
    && (forall k {:trigger MirrorsOne(bts[k], events, fees)} :: 0 <= k < |bts| ==> MirrorsOne(bts[k], events, fees))
    && (forall i {:trigger MirroredBy(events[i], fees, bts)} :: 0 <= i < |events| ==> MirroredBy(events[i], fees, bts))
  }

  ghost predicate MirrorsOne(bt: BalanceTxn, events: seq<Event>, fees: Event -> Option<int>) {
    exists i :: 0 <= i < |events| && Mirrors(bt, events[i], fees(events[i]))
  }

  ghost predicate MirroredBy(e: Event, fees: Event -> Option<int>, bts: seq<BalanceTxn>) {
    exists k :: 0 <= k < |bts| && Mirrors(bts[k], e, fees(e))
  }

  lemma {:induction false} NoCandidate(ledger: seq<Summary>, o: string)
    requires forall i :: 0 <= i < |ledger| ==> ledger[i].objectId != Some(o)
    ensures Candidates(ledger, o) == []
  {
    if ledger != [] {
      NoCandidate(ledger[..|ledger| - 1], o);
    }
  }

  lemma {:induction false} SoleCandidate(ledger: seq<Summary>, i: nat, o: string)
    requires i < |ledger| && ledger[i].objectId == Some(o)
    requires forall j :: 0 <= j < |ledger| && j != i ==> ledger[j].objectId != Some(o)
    ensures Candidates(ledger, o) == [ledger[i]]
  {
    var before := ledger[..|ledger| - 1];
    if i == |before| {
      NoCandidate(before, o);
    } else {
      SoleCandidate(before, i, o);
    }
  }

  lemma {:induction false} CountNone(bts: seq<BalanceTxn>, o: string)
    requires forall k :: 0 <= k < |bts| ==> bts[k].source != Some(o)
    ensures Count(bts, o) == 0
  {
    if bts != [] {
      CountNone(bts[..|bts| - 1], o);
    }
  }

  lemma {:induction false} CountSome(bts: seq<BalanceTxn>, k: nat, o: string)
    requires k < |bts| && bts[k].source == Some(o)
    ensures Count(bts, o) >= 1
  {
    if k < |bts| - 1 {
      CountSome(bts[..|bts| - 1], k, o);
    }
  }

  /** Ledger transactions on distinct objects and balance transactions with distinct
      sources, one for one, agreeing on amount and fee. */
  ghost predicate PairsOff(ledger: seq<Summary>, bts: seq<BalanceTxn>) {
    && (forall i :: 0 <= i < |ledger| ==> ledger[i].objectId.Some?)
    && (forall i, j :: 0 <= i < j < |ledger| ==> ledger[i].objectId != ledger[j].objectId)
    && (forall i, j :: 0 <= i < j < |bts| ==> bts[i].source != bts[j].source)
    && (forall k {:trigger HasEntry(bts[k], ledger)} :: 0 <= k < |bts| ==> HasEntry(bts[k], ledger))
    && (forall i {:trigger IsListed(ledger[i], bts)} :: 0 <= i < |ledger| ==> IsListed(ledger[i], bts))
  }

  ghost predicate HasEntry(bt: BalanceTxn, ledger: seq<Summary>) {
    exists i :: 0 <= i < |ledger| && Meets(bt, ledger[i])
  }

  ghost predicate IsListed(t: Summary, bts: seq<BalanceTxn>) {
    exists k :: 0 <= k < |bts| && Meets(bts[k], t)
  }

  lemma {:induction false} PairClean(ledger: seq<Summary>, bts: seq<BalanceTxn>, k: nat)
    requires PairsOff(ledger, bts) && k < |bts|
    ensures Compare(bts[k], Partner(ledger, bts[k].source, SourceRank(bts[..k], bts[k]))) == []
  {
    assert HasEntry(bts[k], ledger);
    var i :| 0 <= i < |ledger| && Meets(bts[k], ledger[i]);
    var o := ledger[i].objectId.value;
    CountNone(bts[..k], o);
    SoleCandidate(ledger, i, o);
  }

  lemma {:induction false} ForwardClean(ledger: seq<Summary>, bts: seq<BalanceTxn>, n: nat)
    requires PairsOff(ledger, bts) && n <= |bts|
    ensures Forward(ledger, bts[..n]) == []
  {
    if n > 0 {
      ForwardClean(ledger, bts, n - 1);
      PairClean(ledger, bts, n - 1);
      assert bts[..n][..n - 1] == bts[..n - 1];
    }
  }

  lemma {:induction false} NoLeftover(ledger: seq<Summary>, bts: seq<BalanceTxn>, n: nat)
    requires PairsOff(ledger, bts) && n <= |ledger|
    ensures Leftover(ledger[..n], bts) == []
  {
    if n > 0 {
      NoLeftover(ledger, bts, n - 1);
      assert ledger[..n][..n - 1] == ledger[..n - 1];
      NoCandidate(ledger[..n - 1], ledger[n - 1].objectId.value);
      assert IsListed(ledger[n - 1], bts);
      var k :| 0 <= k < |bts| && Meets(bts[k], ledger[n - 1]);
      CountSome(bts, k, ledger[n - 1].objectId.value);
    }
  }

  lemma {:induction false} MirroredPairsOff(
      txns: seq<Txn>, events: seq<Event>, fees: Event -> Option<int>, bts: seq<BalanceTxn>)
    requires Mirrored(txns, events, fees, bts)
    ensures PairsOff(Summaries(txns), bts)
  {
    var ledger := Summaries(txns);
    forall k | 0 <= k < |bts| ensures HasEntry(bts[k], ledger) {
      assert MirrorsOne(bts[k], events, fees);
      var i :| 0 <= i < |events| && Mirrors(bts[k], events[i], fees(events[i]));
      MirroredAgrees(txns[i], events[i], fees(events[i]), bts[k]);
      assert Meets(bts[k], ledger[i]);
    }
    forall i | 0 <= i < |ledger| ensures IsListed(ledger[i], bts) {
      assert MirroredBy(events[i], fees, bts);
      var k :| 0 <= k < |bts| && Mirrors(bts[k], events[i], fees(events[i]));
      MirroredAgrees(txns[i], events[i], fees(events[i]), bts[k]);
      assert Meets(bts[k], ledger[i]);
    }
  }

  /** A ledger the mapping built has no breaks against its Stripe counterparts, in
      any order, whatever the amounts and fees the database let it commit. */
  lemma {:induction false} MappedLedgerIsClean(
      txns: seq<Txn>, events: seq<Event>, fees: Event -> Option<int>, bts: seq<BalanceTxn>)
    requires Mirrored(txns, events, fees, bts)
    requires forall t :: t in txns ==> Commits(t.entries)
    ensures Report(Summaries(txns), bts, InvariantCheck(AllBalances(AllEntries(txns)))) == []
  {
    var ledger := Summaries(txns);
    MirroredPairsOff(txns, events, fees, bts);
    ForwardClean(ledger, bts, |bts|);
    NoLeftover(ledger, bts, |ledger|);
    assert bts[..|bts|] == bts && ledger[..|ledger|] == ledger;
    Conservation(txns);
  }
}
