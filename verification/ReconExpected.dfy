/** reconcile_expected (recon/reconciler.py): the ledger against the events the
    caller knows it delivered. */
module ReconExpected {
  import opened Wrappers
  import opened Sums
  import opened Ledger
  import opened Recon

  datatype Expected = Expected(eventId: string, delta: Balances)

  // One constructor per kind of break, holding what the report prints.
  datatype Break =
    | MissingInLedger(eventId: string, expectedMinor: int)
    | AmountMismatch(objectId: Option<string>, eventId: string, account: Account, want: int, got: int)
    | MissingInSource(txn: Summary)
    | InvariantViolation(check: CurrencyCheck)

  // -------------------------------------------------------- magnitude --

  function Abs(x: int): nat {
    if x < 0 then -x else x
  }

  ghost function Pick(delta: Balances): Account
    requires delta != map[]
    ensures Pick(delta) in delta
  {
    var a :| a in delta;
    a
  }

  /** The L1 norm of a delta: a sum over a map, in any order. */
  ghost function AbsSum(delta: Balances): nat
    decreases |delta|
  {
    if delta == map[] then 0
    else Abs(delta[Pick(delta)]) + AbsSum(delta - {Pick(delta)})
  }

  lemma {:induction false} AbsSumWithout(delta: Balances, a: Account)
    ensures AbsSum(delta) == Abs(Get(delta, a)) + AbsSum(delta - {a})
    decreases |delta|
  {
    if a !in delta {
      assert delta - {a} == delta;
    } else {
      var first := Pick(delta);
      if first != a {
        AbsSumWithout(delta - {first}, a);
        AbsSumWithout(delta - {a}, first);
        assert delta - {first} - {a} == delta - {a} - {first};
      }
    }
  }

  method Magnitude(delta: Balances) returns (m: nat)
    ensures m == AbsSum(delta) / 2
  {
    var rest, total := delta, 0;
    while rest != map[]
      invariant total + AbsSum(rest) == AbsSum(delta)
      decreases |rest|
    {
      var a :| a in rest;
      AbsSumWithout(rest, a);
      total := total + Abs(rest[a]);
      rest := rest - {a};
    }
    m := total / 2;
  }

  function AbsUpTo(delta: Balances, k: nat): nat
    requires k <= |CHART|
  {
    if k == 0 then 0 else AbsUpTo(delta, k - 1) + Abs(Get(delta, CHART[k - 1]))
  }

  lemma {:induction false} AbsUpToSame(d1: Balances, d2: Balances, k: nat)
    requires k <= |CHART|
    requires forall i :: 0 <= i < k ==> Get(d1, CHART[i]) == Get(d2, CHART[i])
    ensures AbsUpTo(d1, k) == AbsUpTo(d2, k)
  {
    if k > 0 {
      AbsUpToSame(d1, d2, k - 1);
    }
  }

  lemma {:induction false} ChartDistinct(k: nat)
    requires 0 < k <= |CHART|
    ensures forall i :: 0 <= i < k - 1 ==> CHART[i] != CHART[k - 1]
    ensures forall a :: Listed(a) && Rank(a) < k && a != CHART[k - 1] ==> Rank(a) < k - 1
  {
    RankOf(k - 1);
    forall i | 0 <= i < k - 1 ensures CHART[i] != CHART[k - 1] {
      RankOf(i);
    }
  }

  lemma {:induction false} ChartAbsSum(delta: Balances, k: nat)
    requires k <= |CHART|
    requires forall a :: a in delta ==> Listed(a) && Rank(a) < k
    ensures AbsSum(delta) == AbsUpTo(delta, k)
  {
    hide Rank, CHART;
    if k == 0 {
      assert delta == map[];
    } else {
      var a := CHART[k - 1];
      AbsSumWithout(delta, a);
      ChartAbsSum(delta - {a}, k - 1);
      ChartDistinct(k);
      AbsUpToSame(delta - {a}, delta, k - 1);
    }
  }

  /** No account stands on both sides of the transaction. */
  predicate OneSided(entries: seq<Entry>) {
    forall e, f :: e in entries && f in entries && e.account == f.account ==> e.dir == f.dir
  }

  ghost predicate Positive(entries: seq<Entry>) {
    forall e :: e in entries ==> e.amount > 0
  }

  predicate Stands(a: Account, dir: Direction, entries: seq<Entry>) {
    exists e :: e in entries && e.account == a && e.dir == dir
  }

  lemma {:induction false} StandsLast(a: Account, dir: Direction, rest: seq<Entry>, last: Entry)
    ensures Stands(a, dir, rest + [last]) <==> Stands(a, dir, rest) || (last.account == a && last.dir == dir)
  {
    if Stands(a, dir, rest) {
      var e :| e in rest && e.account == a && e.dir == dir;
      assert e in rest + [last];
    }
    assert last in rest + [last];
  }

  lemma {:induction false} SideSign(a: Account, dir: Direction, entries: seq<Entry>)
    requires Positive(entries)
    ensures Side(a, dir, entries) >= 0
    ensures Side(a, dir, entries) > 0 <==> Stands(a, dir, entries)
  {
    if entries != [] {
      var rest, last := entries[..|entries| - 1], entries[|entries| - 1];
      assert entries == rest + [last] && last in entries;
      SideSign(a, dir, rest);
      StandsLast(a, dir, rest, last);
      hide Stands;
    }
  }

  lemma {:induction false} BalanceIsSides(a: Account, entries: seq<Entry>)
    requires Listed(a)
    ensures Abs(Balance(a, entries)) == Abs(Side(a, Debit, entries) - Side(a, Credit, entries))
  {
    SidesSigned(a, entries);
  }

  lemma {:induction false} SidesSigned(a: Account, entries: seq<Entry>)
    requires Listed(a)
    ensures Balance(a, entries) ==
      if Normal(a) == Some(Debit) then Side(a, Debit, entries) - Side(a, Credit, entries)
      else Side(a, Credit, entries) - Side(a, Debit, entries)
  {
    if entries != [] {
      SidesSigned(a, entries[..|entries| - 1]);
    }
  }

  lemma {:induction false} AbsAtMostBoth(a: Account, entries: seq<Entry>)
    requires Listed(a) && Positive(entries)
    ensures var both := Side(a, Debit, entries) + Side(a, Credit, entries);
      && Abs(Balance(a, entries)) <= both
      && (Abs(Balance(a, entries)) == both <==> !(Stands(a, Debit, entries) && Stands(a, Credit, entries)))
  {
    hide Side, Balance, Stands, Positive;
    SideSign(a, Debit, entries);
    SideSign(a, Credit, entries);
    BalanceIsSides(a, entries);
  }

  lemma {:induction false} AbsAtMostSides(entries: seq<Entry>, k: nat)
    requires k <= |CHART| && Positive(entries)
    ensures var total := SideTotal(Debit, entries, k) + SideTotal(Credit, entries, k);
      && AbsUpTo(NonZero(AllBalances(entries)), k) <= total
      && (AbsUpTo(NonZero(AllBalances(entries)), k) == total <==>
          forall i :: 0 <= i < k ==> !(Stands(CHART[i], Debit, entries) && Stands(CHART[i], Credit, entries)))
  {
    if k > 0 {
      hide Side, Balance, Stands, Positive;
      var a := CHART[k - 1];
      AbsAtMostSides(entries, k - 1);
      RankOf(k - 1);
      AbsAtMostBoth(a, entries);
    }
  }

  /** The magnitude printed for a delta never exceeds the transaction's debit
      total, and equals it exactly when no account is both debited and credited. */
  lemma {:induction false} MagnitudeOfDelta(entries: seq<Entry>)
    requires Commits(entries)
    ensures var m := AbsSum(NonZero(AllBalances(entries))) / 2;
      && m <= Debits(entries)
      && (m == Debits(entries) <==> OneSided(entries))
  {
    ChartAbsSum(NonZero(AllBalances(entries)), |CHART|);
    AbsAtMostSides(entries, |CHART|);
    SidesCover(entries);
    assert Net(CHART_CURRENCY, entries) == 0;
    OneSidedOnChart(entries);
  }

  lemma {:induction false} OneSidedOnChart(entries: seq<Entry>)
    requires OnChart(entries)
    ensures OneSided(entries) <==>
      forall i :: 0 <= i < |CHART| ==> !(Stands(CHART[i], Debit, entries) && Stands(CHART[i], Credit, entries))
  {
    forall e, f | e in entries && f in entries && e.account == f.account && e.dir != f.dir
      ensures Stands(CHART[Rank(e.account)], Debit, entries) && Stands(CHART[Rank(e.account)], Credit, entries)
    {
    }
  }

  // -------------------------------------------------------- the diff --

  predicate Delivered(expected: seq<Expected>, id: string) {
    exists i :: 0 <= i < |expected| && expected[i].eventId == id
  }

  /** What the first expectation for an event id says it moves; repeats of the id
      are one expectation. */
  function Want(expected: seq<Expected>, id: string): Balances {
    if expected == [] then map[]
    else
      var before, x := expected[..|expected| - 1], expected[|expected| - 1];
      if !Delivered(before, id) && x.eventId == id then NonZero(x.delta) else Want(before, id)
  }

  /** The transaction the index by event id holds: the last one loaded. */
  function Found(ledger: seq<Summary>, id: string): (r: Option<Summary>)
    ensures r.Some? ==> r.value in ledger && r.value.eventId == Some(id)
    ensures r.None? ==> forall t :: t in ledger ==> t.eventId != Some(id)
  {
    if ledger == [] then None
    else if ledger[|ledger| - 1].eventId == Some(id) then Some(ledger[|ledger| - 1])
    else Found(ledger[..|ledger| - 1], id)
  }

  /** Which breaks the diff is to report, stated over the whole ledger and the
      whole list of expectations. */
  ghost predicate Diff(b: Break, ledger: seq<Summary>, expected: seq<Expected>) {
    EventDiff(b, ledger, expected) || (b.MissingInSource? && b.txn in ledger && Unasked(b.txn, expected))
  }

  ghost predicate EventDiff(b: Break, ledger: seq<Summary>, expected: seq<Expected>) {
    && (b.MissingInLedger? || b.AmountMismatch?)
    && Delivered(expected, b.eventId)
    && BreaksOn(b, ledger, b.eventId, Want(expected, b.eventId))
  }

  ghost predicate BreaksOn(b: Break, ledger: seq<Summary>, id: string, want: Balances) {
    match Found(ledger, id)
    case None => want != map[] && b == MissingInLedger(id, AbsSum(want) / 2)
    case Some(txn) => Differs(b, txn, id, want)
  }

  ghost predicate Differs(b: Break, txn: Summary, id: string, want: Balances) {
    && b.AmountMismatch?
    && b == AmountMismatch(txn.objectId, id, b.account, Get(want, b.account), Get(txn.delta, b.account))
    && b.want != b.got
  }

  predicate Unasked(txn: Summary, expected: seq<Expected>) {
    txn.eventId.None? || !Delivered(expected, txn.eventId.value)
  }

  ghost predicate NoRepeat<T(!new)>(xs: seq<T>) {
    forall i, j :: 0 <= i < j < |xs| ==> xs[i] != xs[j]
  }

  method CompareDeltas(txn: Summary, id: string, want: Balances) returns (diffs: seq<Break>)
    ensures forall b :: b in diffs <==> Differs(b, txn, id, want)
    ensures NoRepeat(diffs)
  {
    diffs := [];
    var all := want.Keys + txn.delta.Keys;
    var rest := all;
    while rest != {}
      invariant rest <= all && NoRepeat(diffs)
      invariant forall b :: b in diffs <==> Differs(b, txn, id, want) && b.account !in rest
      decreases |rest|
    {
      var a :| a in rest;
      rest := rest - {a};
      var w, g := Get(want, a), Get(txn.delta, a);
      if w != g {
        diffs := diffs + [AmountMismatch(txn.objectId, id, a, w, g)];
      }
    }
    forall b | Differs(b, txn, id, want) ensures b.account in all {
    }
  }

  predicate Compared(ledger: seq<Summary>, expected: seq<Expected>, id: string) {
    Found(ledger, id).Some? || Want(expected, id) != map[]
  }

  function ComparedIds(ledger: seq<Summary>, expected: seq<Expected>): set<string> {
    set i | 0 <= i < |expected| && Compared(ledger, expected, expected[i].eventId) :: expected[i].eventId
  }

  lemma {:induction false} OneMore(ledger: seq<Summary>, before: seq<Expected>, x: Expected)
    ensures forall id :: Delivered(before + [x], id) <==> Delivered(before, id) || id == x.eventId
    ensures forall id :: Delivered(before, id) || id != x.eventId ==> Want(before + [x], id) == Want(before, id)
    ensures !Delivered(before, x.eventId) ==> Want(before + [x], x.eventId) == NonZero(x.delta)
  {
    var after := before + [x];
    assert after[..|before|] == before;
    forall id ensures Delivered(after, id) <==> Delivered(before, id) || id == x.eventId {
      if Delivered(before, id) {
        var i :| 0 <= i < |before| && before[i].eventId == id;
        assert after[i].eventId == id;
      }
      assert after[|before|] == x;
    }
  }

  lemma {:induction false} DiffStep(b: Break, ledger: seq<Summary>, before: seq<Expected>, x: Expected)
    ensures EventDiff(b, ledger, before + [x]) <==>
      || EventDiff(b, ledger, before)
      || (!Delivered(before, x.eventId) && BreaksOn(b, ledger, x.eventId, NonZero(x.delta)))
  {
    OneMore(ledger, before, x);
  }

  lemma {:induction false} ComparedStep(ledger: seq<Summary>, before: seq<Expected>, x: Expected)
    ensures ComparedIds(ledger, before + [x]) == ComparedIds(ledger, before) +
      if !Delivered(before, x.eventId) && (Found(ledger, x.eventId).Some? || NonZero(x.delta) != map[])
      then {x.eventId} else {}
    ensures !Delivered(before, x.eventId) ==> x.eventId !in ComparedIds(ledger, before)
  {
    OneMore(ledger, before, x);
    var after := before + [x];
    forall id ensures id in ComparedIds(ledger, after) <==> Delivered(after, id) && Compared(ledger, after, id) {
      if Delivered(after, id) {
        var i :| 0 <= i < |after| && after[i].eventId == id;
      }
    }
    forall id ensures id in ComparedIds(ledger, before) <==> Delivered(before, id) && Compared(ledger, before, id) {
      if Delivered(before, id) {
        var i :| 0 <= i < |before| && before[i].eventId == id;
      }
    }
  }

  method IndexByEvent(ledger: seq<Summary>) returns (index: map<string, Summary>)
    ensures forall id :: id in index <==> Found(ledger, id).Some?
    ensures forall id :: id in index ==> index[id] == Found(ledger, id).value
  {
    index := map[];
    for i := 0 to |ledger|
      invariant forall id :: id in index <==> Found(ledger[..i], id).Some?
      invariant forall id :: id in index ==> index[id] == Found(ledger[..i], id).value
    {
      assert ledger[..i + 1][..i] == ledger[..i];
      if ledger[i].eventId.Some? {
        index := index[ledger[i].eventId.value := ledger[i]];
      }
    }
    assert ledger[..|ledger|] == ledger;
  }

  lemma {:induction false} Joined<T(!new)>(xs: seq<T>, ys: seq<T>)
    requires NoRepeat(xs) && NoRepeat(ys) && forall x :: x in xs ==> x !in ys
    ensures NoRepeat(xs + ys)
  {
    forall i, j | 0 <= i < j < |xs + ys| ensures (xs + ys)[i] != (xs + ys)[j] {
      if i < |xs| <= j {
        assert xs[i] in xs && ys[j - |xs|] in ys;
      }
    }
  }

  /** One expected event against the transaction the index holds for it. */
  method CompareOne(ghost ledger: seq<Summary>, txn: Option<Summary>, id: string, want: Balances)
    returns (diffs: seq<Break>, compared: bool)
    requires txn == Found(ledger, id)
    ensures forall b :: b in diffs <==> BreaksOn(b, ledger, id, want)
    ensures NoRepeat(diffs)
    ensures compared == (txn.Some? || want != map[])
  {
    match txn {
      case None =>
        compared := want != map[];
        diffs := [];
        if compared {
          var m := Magnitude(want);
          diffs := [MissingInLedger(id, m)];
        }
      case Some(t) =>
        compared := true;
        diffs := CompareDeltas(t, id, want);
    }
  }

  lemma {:induction false} BreaksNameTheirEvent(b: Break, ledger: seq<Summary>, id: string, want: Balances)
    requires BreaksOn(b, ledger, id, want)
    ensures !b.MissingInSource? && !b.InvariantViolation? && b.eventId == id
  {
  }

  /** What the loop over the expectations has done after those in before. */
  ghost predicate Reported(
      ledger: seq<Summary>, before: seq<Expected>, breaks: seq<Break>, seen: set<string>, checked: nat) {
    && (forall b :: b in breaks <==> EventDiff(b, ledger, before))
    && NoRepeat(breaks)
    && (forall id :: id in seen <==> Delivered(before, id))
    && checked == |ComparedIds(ledger, before)|
  }

  lemma {:induction false} RepeatStep(
      ledger: seq<Summary>, before: seq<Expected>, x: Expected, breaks: seq<Break>, seen: set<string>, checked: nat)
    requires Reported(ledger, before, breaks, seen, checked) && x.eventId in seen
    ensures Reported(ledger, before + [x], breaks, seen, checked)
  {
    OneMore(ledger, before, x);
    ComparedStep(ledger, before, x);
    forall b ensures b in breaks <==> EventDiff(b, ledger, before + [x]) {
      DiffStep(b, ledger, before, x);
    }
  }

  /** What one new expectation adds to the report. */
  lemma {:induction false} ReportStep(
      ledger: seq<Summary>, before: seq<Expected>, x: Expected, breaks: seq<Break>, seen: set<string>, checked: nat,
      diffs: seq<Break>, compared: bool)
    requires Reported(ledger, before, breaks, seen, checked) && x.eventId !in seen
    requires NoRepeat(diffs) && forall b :: b in diffs <==> BreaksOn(b, ledger, x.eventId, NonZero(x.delta))
    requires compared == (Found(ledger, x.eventId).Some? || NonZero(x.delta) != map[])
    ensures Reported(ledger, before + [x], breaks + diffs, seen + {x.eventId}, if compared then checked + 1 else checked)
  {
    OneMore(ledger, before, x);
    ComparedStep(ledger, before, x);
    forall b ensures b in breaks + diffs <==> EventDiff(b, ledger, before + [x]) {
      DiffStep(b, ledger, before, x);
    }
    forall b | b in breaks ensures b !in diffs {
      if b in diffs {
        BreaksNameTheirEvent(b, ledger, x.eventId, NonZero(x.delta));
      }
    }
    Joined(breaks, diffs);
  }

  method CompareEvents(ledger: seq<Summary>, expected: seq<Expected>)
    returns (breaks: seq<Break>, seen: set<string>, checked: nat)
    ensures forall b :: b in breaks <==> EventDiff(b, ledger, expected)
    ensures NoRepeat(breaks)
    ensures forall id :: id in seen <==> Delivered(expected, id)
    ensures checked == |ComparedIds(ledger, expected)|
  {
    var byEvent := IndexByEvent(ledger);
    breaks, seen, checked := [], {}, 0;
    for i := 0 to |expected|
      invariant Reported(ledger, expected[..i], breaks, seen, checked)
    {
      var x := expected[i];
      assert expected[..i + 1] == expected[..i] + [x];
      if x.eventId in seen {
        RepeatStep(ledger, expected[..i], x, breaks, seen, checked);
        continue;
      }
      var txn := if x.eventId in byEvent then Some(byEvent[x.eventId]) else None;
      var diffs, compared := CompareOne(ledger, txn, x.eventId, NonZero(x.delta));
      ReportStep(ledger, expected[..i], x, breaks, seen, checked, diffs, compared);
      seen := seen + {x.eventId};
      breaks := breaks + diffs;
      if compared {
        checked := checked + 1;
      }
    }
    assert expected[..|expected|] == expected;
  }

  method ReconcileExpected(ledger: seq<Summary>, expected: seq<Expected>, inv: CurrencyCheck)
    returns (breaks: seq<Break>, checked: nat, invariantOk: bool)
    ensures forall b :: b in breaks <==> Diff(b, ledger, expected) || (b == InvariantViolation(inv) && !inv.Ok())
    ensures NoRepeat(ledger) ==> NoRepeat(breaks)
    ensures checked == |ComparedIds(ledger, expected)|
    ensures invariantOk == inv.Ok()
  {
    var seen;
    breaks, seen, checked := CompareEvents(ledger, expected);
    for j := 0 to |ledger|
      invariant forall b :: b in breaks <==>
        || EventDiff(b, ledger, expected)
        || (b.MissingInSource? && b.txn in ledger[..j] && Unasked(b.txn, expected))
      invariant NoRepeat(ledger) ==> NoRepeat(breaks)
    {
      var txn := ledger[j];
      assert ledger[..j + 1] == ledger[..j] + [txn];
      if txn.eventId.Some? && txn.eventId.value in seen {
        continue;
      }
      if NoRepeat(ledger) {
        Joined(breaks, [MissingInSource(txn)]);
      }
      breaks := breaks + [MissingInSource(txn)];
    }
    assert ledger[..|ledger|] == ledger;
    invariantOk := inv.Ok();
    if !invariantOk {
      if NoRepeat(ledger) {
        Joined(breaks, [InvariantViolation(inv)]);
      }
      breaks := breaks + [InvariantViolation(inv)];
    }
  }

  // ------------------------------------------------ the diff is exact --

  /** The ledger says, event by event, what was expected: an absent transaction
      counts as the zero delta, and nothing else was recorded. */
  ghost predicate Agrees(ledger: seq<Summary>, expected: seq<Expected>) {
    && (forall id :: Delivered(expected, id) ==> Recorded(ledger, id) == Want(expected, id))
    && (forall t :: t in ledger ==> !Unasked(t, expected))
  }

  function Recorded(ledger: seq<Summary>, id: string): Balances {
    match Found(ledger, id)
    case None => map[]
    case Some(txn) => txn.delta
  }

  ghost predicate NoZeros(ledger: seq<Summary>) {
    forall t :: t in ledger ==> NonZero(t.delta) == t.delta
  }

  lemma {:induction false} WantHasNoZeros(expected: seq<Expected>, id: string)
    ensures NonZero(Want(expected, id)) == Want(expected, id)
  {
    if expected != [] {
      WantHasNoZeros(expected[..|expected| - 1], id);
    }
  }

  lemma {:induction false} SameDelta(d1: Balances, d2: Balances)
    requires NonZero(d1) == d1 && NonZero(d2) == d2
    requires forall a :: Get(d1, a) == Get(d2, a)
    ensures d1 == d2
  {
    forall a ensures a in d1 <==> a in d2 {
      assert a in d1 ==> a in NonZero(d1) && Get(d1, a) != 0;
      assert a in d2 ==> a in NonZero(d2) && Get(d2, a) != 0;
      assert Get(d1, a) == Get(d2, a);
    }
    forall a | a in d1 ensures d1[a] == d2[a] {
      assert Get(d1, a) == Get(d2, a);
    }
  }

  /** No diff break is reported exactly when the ledger agrees with what was
      expected. */
  lemma {:induction false} DiffIsExact(ledger: seq<Summary>, expected: seq<Expected>)
    requires NoZeros(ledger)
    ensures (forall b :: !Diff(b, ledger, expected)) <==> Agrees(ledger, expected)
  {
    if forall b :: !Diff(b, ledger, expected) {
      forall id | Delivered(expected, id) ensures Recorded(ledger, id) == Want(expected, id) {
        Silent(ledger, expected, id);
      }
      forall t | t in ledger ensures !Unasked(t, expected) {
        assert !Diff(MissingInSource(t), ledger, expected);
      }
    }
  }

  lemma {:induction false} Silent(ledger: seq<Summary>, expected: seq<Expected>, id: string)
    requires NoZeros(ledger) && Delivered(expected, id)
    requires forall b :: !Diff(b, ledger, expected)
    ensures Recorded(ledger, id) == Want(expected, id)
  {
    var want := Want(expected, id);
    match Found(ledger, id)
    case None =>
      assert !Diff(MissingInLedger(id, AbsSum(want) / 2), ledger, expected);
    case Some(txn) =>
      WantHasNoZeros(expected, id);
      forall a ensures Get(want, a) == Get(txn.delta, a) {
        assert !Diff(AmountMismatch(txn.objectId, id, a, Get(want, a), Get(txn.delta, a)), ledger, expected);
      }
      SameDelta(want, txn.delta);
  }

  // ------------------------------- what a clean diff says of the balances --

  /** The expectations with repeats of an event id dropped. */
  function Distincts(expected: seq<Expected>): seq<Expected> {
    if expected == [] then []
    else
      var before, x := expected[..|expected| - 1], expected[|expected| - 1];
      Distincts(before) + if Delivered(before, x.eventId) then [] else [x]
  }

  /** Those of them the ledger holds a transaction for. */
  function Held(xs: seq<Expected>, ledger: seq<Summary>): seq<Expected> {
    if xs == [] then []
    else
      var x := xs[|xs| - 1];
      Held(xs[..|xs| - 1], ledger) + if Found(ledger, x.eventId).Some? then [x] else []
  }

  lemma {:induction false} DistinctsDelivered(expected: seq<Expected>, id: string)
    ensures Delivered(Distincts(expected), id) <==> Delivered(expected, id)
  {
    if expected != [] {
      var before, x := expected[..|expected| - 1], expected[|expected| - 1];
      assert expected == before + [x];
      DistinctsDelivered(before, id);
      OneMore([], before, x);
      OneMore([], Distincts(before), x);
      assert Distincts(before) + [] == Distincts(before);
    }
  }

  lemma {:induction false} DistinctsWant(expected: seq<Expected>, y: Expected)
    requires y in Distincts(expected)
    ensures Delivered(expected, y.eventId) && NonZero(y.delta) == Want(expected, y.eventId)
  {
    var before, x := expected[..|expected| - 1], expected[|expected| - 1];
    assert expected == before + [x];
    OneMore([], before, x);
    if y in Distincts(before) {
      DistinctsWant(before, y);
    } else {
      assert y == x;
    }
  }

  lemma {:induction false} DistinctsDistinct(expected: seq<Expected>)
    ensures Distinct(Distincts(expected), (x: Expected) => x.eventId)
  {
    if expected != [] {
      var before, x := expected[..|expected| - 1], expected[|expected| - 1];
      DistinctsDistinct(before);
      if !Delivered(before, x.eventId) {
        forall i | 0 <= i < |Distincts(before)| ensures Distincts(before)[i].eventId != x.eventId {
          DistinctsWant(before, Distincts(before)[i]);
        }
      }
    }
  }

  lemma {:induction false} HeldSum(xs: seq<Expected>, ledger: seq<Summary>, f: Expected -> int)
    requires forall x :: x in xs && Found(ledger, x.eventId).None? ==> f(x) == 0
    ensures Sum(Held(xs, ledger), f) == Sum(xs, f)
  {
    if xs != [] {
      var before := xs[..|xs| - 1];
      assert xs[|xs| - 1] in xs && forall x :: x in before ==> x in xs;
      HeldSum(before, ledger, f);
      if Found(ledger, xs[|xs| - 1].eventId).Some? {
        SumLast(Held(before, ledger), xs[|xs| - 1], f);
      } else {
        assert Held(xs, ledger) == Held(before, ledger);
      }
    }
  }

  lemma {:induction false} HeldAre(xs: seq<Expected>, ledger: seq<Summary>)
    requires Distinct(xs, (x: Expected) => x.eventId)
    ensures forall x :: x in Held(xs, ledger) <==> x in xs && Found(ledger, x.eventId).Some?
    ensures Distinct(Held(xs, ledger), (x: Expected) => x.eventId)
  {
    hide Found;
    if xs != [] {
      var before, x := xs[..|xs| - 1], xs[|xs| - 1];
      assert xs == before + [x];
      assert Distinct(before, (y: Expected) => y.eventId);
      HeldAre(before, ledger);
      forall y | y in Held(before, ledger) ensures y.eventId != x.eventId {
        assert y in before;
        var i :| 0 <= i < |before| && before[i] == y;
        assert xs[i].eventId != xs[|before|].eventId;
      }
    }
  }

  ghost predicate UniqueEvents(txns: seq<Txn>) {
    forall i, j :: 0 <= i < j < |txns| && txns[i].eventId.Some? ==> txns[i].eventId != txns[j].eventId
  }

  lemma {:induction false} FoundIs(txns: seq<Txn>, i: nat)
    requires UniqueEvents(txns) && i < |txns| && txns[i].eventId.Some?
    ensures Found(Summaries(txns), txns[i].eventId.value) == Some(Summarise(txns[i]))
  {
    var ledger, id := Summaries(txns), txns[i].eventId.value;
    assert ledger[i] in ledger;
    var t := Found(ledger, id).value;
    var j :| 0 <= j < |ledger| && ledger[j] == t;
    assert txns[j].eventId == Some(id);
  }

  lemma {:induction false} EveryEventKnown(txns: seq<Txn>, expected: seq<Expected>)
    requires Agrees(Summaries(txns), expected)
    ensures forall t :: t in txns ==> t.eventId.Some? && Delivered(expected, t.eventId.value)
  {
    forall t | t in txns ensures t.eventId.Some? && Delivered(expected, t.eventId.value) {
      var i :| 0 <= i < |txns| && txns[i] == t;
      assert Summaries(txns)[i] in Summaries(txns);
      assert !Unasked(Summaries(txns)[i], expected);
    }
  }

  ghost predicate HeldOf(held: seq<Expected>, expected: seq<Expected>, ledger: seq<Summary>) {
    forall x :: x in held <==> x in Distincts(expected) && Found(ledger, x.eventId).Some?
  }

  lemma {:induction false} PostedIsHeld(txns: seq<Txn>, expected: seq<Expected>, held: seq<Expected>, i: nat)
    requires UniqueEvents(txns) && Agrees(Summaries(txns), expected)
    requires HeldOf(held, expected, Summaries(txns))
    requires i < |txns|
    ensures exists j :: 0 <= j < |held| && Some(held[j].eventId) == txns[i].eventId
  {
    EveryEventKnown(txns, expected);
    assert txns[i] in txns;
    var id := txns[i].eventId.value;
    FoundIs(txns, i);
    DistinctsDelivered(expected, id);
    var j :| 0 <= j < |Distincts(expected)| && Distincts(expected)[j].eventId == id;
    assert Distincts(expected)[j] in held;
  }

  lemma {:induction false} HeldIsPosted(txns: seq<Txn>, expected: seq<Expected>, held: seq<Expected>, j: nat)
    requires HeldOf(held, expected, Summaries(txns))
    requires j < |held|
    ensures exists i :: 0 <= i < |txns| && txns[i].eventId == Some(held[j].eventId)
  {
    assert held[j] in held;
    var t := Found(Summaries(txns), held[j].eventId).value;
    var i :| 0 <= i < |Summaries(txns)| && Summaries(txns)[i] == t;
    assert txns[i].eventId == Some(held[j].eventId);
  }

  lemma {:induction false} HeldBalance(txns: seq<Txn>, expected: seq<Expected>, held: seq<Expected>, a: Account, i: nat, j: nat)
    requires UniqueEvents(txns) && Agrees(Summaries(txns), expected) && Listed(a)
    requires HeldOf(held, expected, Summaries(txns))
    requires i < |txns| && j < |held| && txns[i].eventId == Some(held[j].eventId)
    ensures Balance(a, txns[i].entries) == Get(held[j].delta, a)
  {
    FoundIs(txns, i);
    assert held[j] in held;
    DistinctsWant(expected, held[j]);
    assert Get(Summarise(txns[i]).delta, a) == Balance(a, txns[i].entries);
    assert Get(NonZero(held[j].delta), a) == Get(held[j].delta, a);
  }

  lemma {:induction false} LedgerSumIsHeld(txns: seq<Txn>, expected: seq<Expected>, held: seq<Expected>, a: Account)
    requires UniqueEvents(txns) && Agrees(Summaries(txns), expected) && Listed(a)
    requires HeldOf(held, expected, Summaries(txns))
    requires Distinct(held, (x: Expected) => x.eventId)
    ensures NetChange(a, txns) == Sum(held, (x: Expected) => Get(x.delta, a))
  {
    EveryEventKnown(txns, expected);
    var kx, ky := (t: Txn) => t.eventId, (x: Expected) => Some(x.eventId);
    assert Distinct(txns, kx) by {
      assert forall i :: 0 <= i < |txns| ==> txns[i] in txns;
    }
    assert Distinct(held, ky);
    forall k ensures Carries(txns, kx, k) <==> Carries(held, ky, k) {
      if i :| 0 <= i < |txns| && kx(txns[i]) == k {
        PostedIsHeld(txns, expected, held, i);
      }
      if j :| 0 <= j < |held| && ky(held[j]) == k {
        HeldIsPosted(txns, expected, held, j);
      }
    }
    forall i, j | 0 <= i < |txns| && 0 <= j < |held| && kx(txns[i]) == ky(held[j])
      ensures Balance(a, txns[i].entries) == Get(held[j].delta, a)
    {
      HeldBalance(txns, expected, held, a, i, j);
    }
    SumByKey(txns, held, kx, ky, (t: Txn) => Balance(a, t.entries), (x: Expected) => Get(x.delta, a));
  }

  /** When the diff is clean, every account's balance is the sum of the expected
      deltas, each delivered event counted once however often it is listed. */
  lemma {:induction false} CleanDiffBalances(txns: seq<Txn>, expected: seq<Expected>, a: Account)
    requires UniqueEvents(txns) && Listed(a)
    requires forall b :: !Diff(b, Summaries(txns), expected)
    ensures Balance(a, AllEntries(txns)) == Sum(Distincts(expected), (x: Expected) => Get(x.delta, a))
  {
    var ledger, firsts := Summaries(txns), Distincts(expected);
    var f := (x: Expected) => Get(x.delta, a);
    DiffIsExact(ledger, expected);
    BalanceOfLedger(a, txns);
    DistinctsDistinct(expected);
    HeldAre(firsts, ledger);
    LedgerSumIsHeld(txns, expected, Held(firsts, ledger), a);
    forall x | x in firsts && Found(ledger, x.eventId).None? ensures f(x) == 0 {
      DistinctsWant(expected, x);
      assert Get(NonZero(x.delta), a) == Get(x.delta, a);
    }
    HeldSum(firsts, ledger, f);
  }

  // ------------------------------------------------- what a report says --

  /** The k-th expectation is the first for its event. */
  predicate FirstFor(expected: seq<Expected>, k: nat)
    requires k < |expected|
  {
    forall j :: 0 <= j < k ==> expected[j].eventId != expected[k].eventId
  }

  lemma {:induction false} WantIsFirst(expected: seq<Expected>, k: nat, a: Account)
    requires k < |expected| && FirstFor(expected, k)
    ensures Get(Want(expected, expected[k].eventId), a) == Get(expected[k].delta, a)
    ensures Want(expected, expected[k].eventId) == NonZero(expected[k].delta)
    decreases |expected|
  {
    var n := |expected| - 1;
    var before, x := expected[..n], expected[n];
    assert expected == before + [x];
    OneMore([], before, x);
    if k < n {
      WantIsFirst(before, k, a);
      assert before[k].eventId == expected[k].eventId;
    }
  }

  /** With one transaction an event, an account differs in the report exactly where the
      first expectation for the event and its transaction do, and what is printed as
      wanted and as found is what each of them says. */
  lemma {:induction false} MismatchSays(
      ledger: seq<Summary>, expected: seq<Expected>, k: nat, t: Summary, a: Account, o: Option<string>, want: int, got: int)
    requires k < |expected| && FirstFor(expected, k)
    requires t in ledger && t.eventId == Some(expected[k].eventId)
    requires forall u :: u in ledger && u.eventId == t.eventId ==> u == t
    ensures Diff(AmountMismatch(o, expected[k].eventId, a, want, got), ledger, expected) <==>
      && o == t.objectId && want == Get(expected[k].delta, a) && got == Get(t.delta, a) && want != got
  {
    WantIsFirst(expected, k, a);
  }

  /** An event without a transaction is missing exactly if its first expectation moves
      anything, and what is printed is half of what it moves, account by account. */
  lemma {:induction false} MissingSays(ledger: seq<Summary>, expected: seq<Expected>, k: nat, minor: int)
    requires k < |expected| && FirstFor(expected, k)
    requires forall t :: t in ledger ==> t.eventId != Some(expected[k].eventId)
    ensures Diff(MissingInLedger(expected[k].eventId, minor), ledger, expected) <==>
      (exists a :: Get(expected[k].delta, a) != 0) && minor == AbsSum(NonZero(expected[k].delta)) / 2
  {
    WantIsFirst(expected, k, StripeBalance);
    var want := NonZero(expected[k].delta);
    if want != map[] {
      var a :| a in want;
      assert Get(expected[k].delta, a) != 0;
    }
    forall a | Get(expected[k].delta, a) != 0 ensures a in want {
    }
  }

  /** A ledger transaction is reported as unknown exactly if no expectation names it. */
  lemma {:induction false} UnknownSays(ledger: seq<Summary>, expected: seq<Expected>, t: Summary)
    ensures Diff(MissingInSource(t), ledger, expected) <==>
      t in ledger && forall x :: x in expected ==> t.eventId != Some(x.eventId)
  {
    if t.eventId.Some? && Delivered(expected, t.eventId.value) {
      var i :| 0 <= i < |expected| && expected[i].eventId == t.eventId.value;
      assert expected[i] in expected;
    }
    forall x | x in expected && t.eventId == Some(x.eventId) ensures Delivered(expected, t.eventId.value) {
      var i :| 0 <= i < |expected| && expected[i] == x;
    }
  }
}
