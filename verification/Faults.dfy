/** Fault plans (harness/faults.py): the exact deliveries that inject each fault,
    and what the ledger should look like afterwards. */
module Faults {
  import opened Wrappers
  import opened Sums
  import opened Ledger
  import opened Mapping
  import opened Fixtures
  import opened Signature
  import opened Gate

  datatype Fault =
    | NoFault | Duplicated | DuplicateObject | ConcurrentDuplicate | Reorder | Delay | Drop | Respond500
    | TamperBody | TruncateBody | StaleTimestamp | DowngradeScheme | PartialWrite | SlowLoris

  datatype Delivery = Delivery(
    body: Bytes, header: string, eventId: string, delayBefore: real, slowLoris: real,
    expectRejected: bool, expectReason: Option<string>)

  datatype Expectation = Expectation(
    posted: set<string>, rejected: set<string>, balancesDelta: Balances, shouldReportBreak: bool)

  datatype FaultPlan = FaultPlan(
    fault: Fault, deliveries: seq<Delivery>, concurrent: bool, force500: bool,
    killWorkerAfter: Option<real>, redeliverAfterKill: bool, expectation: Expectation)

  datatype PlanError = NoFixtures | TooFewCopies | TooFewFixtures | UnsupportedOrder | AgeInsideTolerance | NoDigit

  // The parameters the faults read, defaults already merged in.
  datatype Params = Params(
    n: int, order: string, seconds: real, pastTolerance: bool, killAfter: real, ageS: int, hold: real)

  function Defaults(fault: Fault): Params {
    Params(if fault == ConcurrentDuplicate then 8 else 3, "reverse", 1.0, false, 0.15, 600, 3.0)
  }

  const STALE_MARGIN_SECONDS := 60

  // What the harness holds: its webhook secret, the digest, and how it writes an event.
  datatype Kit = Kit(digest: Digest, serialize: Event -> Bytes, secret: string)

  // ------------------------------------------------------------ one byte --

  const DATA_KEY: Bytes := [34, 100, 97, 116, 97, 34, 58]  // "data":

  predicate IsDigitByte(b: Byte) {
    48 <= b <= 57
  }

  predicate KeyAt(body: Bytes, i: int) {
    0 <= i && i + |DATA_KEY| <= |body| && body[i..i + |DATA_KEY|] == DATA_KEY
  }

  /** body.find of the data key, or 0 when it is absent. */
  function DataStart(body: Bytes, from: nat): nat
    decreases |body| - from
  {
    if from >= |body| then 0 else if KeyAt(body, from) then from else DataStart(body, from + 1)
  }

  function NextDigit(b: Byte): Byte
    requires IsDigitByte(b)
  {
    48 + (b - 48 + 1) % 10
  }

  /** The body with the first digit from an index on turned to the next, and where. */
  function Flip(body: Bytes, from: nat): Option<(Bytes, nat)>
    decreases |body| - from
  {
    if from >= |body| then None
    else if IsDigitByte(body[from]) then Some((body[from := NextDigit(body[from])], from))
    else Flip(body, from + 1)
  }

  method FindData(body: Bytes) returns (start: nat)
    ensures start == DataStart(body, 0)
  {
    start := 0;
    while start < |body|
      invariant start <= |body|
      invariant DataStart(body, 0) == DataStart(body, start)
    {
      if KeyAt(body, start) {
        return;
      }
      start := start + 1;
    }
    start := 0;
  }

  method FlipOneByte(body: Bytes) returns (r: Option<(Bytes, nat)>)
    ensures r == Flip(body, DataStart(body, 0))
  {
    var start := FindData(body);
    var index := start;
    while index < |body|
      invariant Flip(body, start) == Flip(body, index)
    {
      if IsDigitByte(body[index]) {
        return Some((body[index := NextDigit(body[index])], index));
      }
      index := index + 1;
    }
    return None;
  }

  lemma {:induction false} DataStartIs(body: Bytes, from: nat)
    requires from <= |body| && forall j :: 0 <= j < from ==> !KeyAt(body, j)
    ensures var start := DataStart(body, from);
      if exists i :: KeyAt(body, i) then KeyAt(body, start) && forall j :: 0 <= j < start ==> !KeyAt(body, j)
      else start == 0
    decreases |body| - from
  {
    if from < |body| && !KeyAt(body, from) {
      DataStartIs(body, from + 1);
    }
  }

  lemma {:induction false} FlipIs(body: Bytes, from: nat)
    ensures Flip(body, from).None? ==> forall j :: from <= j < |body| ==> !IsDigitByte(body[j])
    ensures Flip(body, from).Some? ==>
      var (flipped, i) := Flip(body, from).value;
      && from <= i < |body| && IsDigitByte(body[i])
      && (forall j :: from <= j < i ==> !IsDigitByte(body[j]))
      && |flipped| == |body| && flipped[i] == (if body[i] == 57 then 48 else body[i] + 1)
      && forall j :: 0 <= j < |body| && j != i ==> flipped[j] == body[j]
    decreases |body| - from
  {
    if from < |body| && !IsDigitByte(body[from]) {
      FlipIs(body, from + 1);
    }
  }

  /** The tampered body: one digit, the first in the event's data, becomes the next
      digit, nine becoming zero, and every other byte stays. It fails only if the data holds no digit. */
  lemma {:induction false} FlipChangesOneDigit(body: Bytes)
    ensures var start, r := DataStart(body, 0), Flip(body, DataStart(body, 0));
      && ((exists i :: KeyAt(body, i)) ==> KeyAt(body, start) && forall j :: 0 <= j < start ==> !KeyAt(body, j))
      && (r.None? ==> forall j :: start <= j < |body| ==> !IsDigitByte(body[j]))
      && (r.Some? ==> FirstDigitFlipped(body, start, r.value.0, r.value.1))
  {
    DataStartIs(body, 0);
    FlipIs(body, DataStart(body, 0));
  }

  predicate FirstDigitFlipped(body: Bytes, start: nat, flipped: Bytes, i: nat) {
    && |flipped| == |body| && start <= i < |body| && flipped != body
    && (forall j :: start <= j < i ==> !IsDigitByte(body[j]))
    && 48 <= body[i] <= 57 && flipped[i] == (if body[i] == 57 then 48 else body[i] + 1)
    && forall j :: 0 <= j < |body| && j != i ==> flipped[j] == body[j]
  }

  // ------------------------------------------------------------ sum delta --

  function Counted(fx: Fixture, posted: set<string>, a: Account): int {
    if fx.event.id in posted then Get(fx.expectedDelta, a) else 0
  }

  function TotalAt(fixtures: seq<Fixture>, posted: set<string>, a: Account): int {
    Sum(fixtures, (fx: Fixture) => Counted(fx, posted, a))
  }

  function Plus(totals: Balances, delta: Balances): (r: Balances)
    ensures forall a :: Get(r, a) == Get(totals, a) + Get(delta, a)
  {
    map a | a in totals.Keys + delta.Keys :: Get(totals, a) + Get(delta, a)
  }

  function Totals(fixtures: seq<Fixture>, posted: set<string>): Balances {
    if fixtures == [] then map[]
    else
      var before, fx := Totals(fixtures[..|fixtures| - 1], posted), fixtures[|fixtures| - 1];
      if fx.event.id in posted then Plus(before, fx.expectedDelta) else before
  }

  function SumDelta(fixtures: seq<Fixture>, posted: set<string>): Balances {
    NonZero(Totals(fixtures, posted))
  }

  /** _sum_delta is, per account, the sum over the posted fixtures. */
  lemma {:induction false} TotalsAre(fixtures: seq<Fixture>, posted: set<string>, a: Account)
    ensures Get(Totals(fixtures, posted), a) == TotalAt(fixtures, posted, a)
    ensures Get(SumDelta(fixtures, posted), a) == TotalAt(fixtures, posted, a)
  {
    if fixtures != [] {
      TotalsAre(fixtures[..|fixtures| - 1], posted, a);
    }
  }

  /** What the totals are once the accounts in done have been added. */
  ghost predicate Added(r: Balances, totals: Balances, delta: Balances, done: set<Account>) {
    && (forall a :: a in r <==> a in totals || a in done)
    && (forall a :: a in done ==> Get(r, a) == Get(totals, a) + Get(delta, a))
    && (forall a :: a !in done ==> Get(r, a) == Get(totals, a))
  }

  lemma {:induction false} AddedAll(r: Balances, totals: Balances, delta: Balances)
    requires Added(r, totals, delta, delta.Keys)
    ensures r == Plus(totals, delta)
  {
    var sum := Plus(totals, delta);
    assert forall a :: a in sum <==> a in totals || a in delta.Keys;
    forall a | a in sum ensures a in r && r[a] == sum[a] {
      assert Get(r, a) == r[a];
    }
  }

  lemma {:induction false} AddedStep(r: Balances, totals: Balances, delta: Balances, rest: set<Account>, a: Account)
    requires rest <= delta.Keys && a in rest && a in delta
    requires Added(r, totals, delta, delta.Keys - rest)
    ensures Added(r[a := Get(r, a) + delta[a]], totals, delta, delta.Keys - (rest - {a}))
  {
    var after, done := r[a := Get(r, a) + delta[a]], delta.Keys - (rest - {a});
    forall b ensures b in done <==> b == a || b in delta.Keys - rest {
    }
    forall b | b in done ensures Get(after, b) == Get(totals, b) + Get(delta, b) {
      if b != a {
        assert Get(after, b) == Get(r, b);
      }
    }
  }

  method AddDelta(totals: Balances, delta: Balances) returns (r: Balances)
    ensures r == Plus(totals, delta)
  {
    r := totals;
    var rest := delta.Keys;
    while rest != {}
      invariant rest <= delta.Keys
      invariant Added(r, totals, delta, delta.Keys - rest)
      decreases |rest|
    {
      var a :| a in rest;
      AddedStep(r, totals, delta, rest, a);
      r := r[a := Get(r, a) + delta[a]];
      rest := rest - {a};
    }
    assert delta.Keys - rest == delta.Keys;
    AddedAll(r, totals, delta);
  }

  method SumDeltas(fixtures: seq<Fixture>, posted: set<string>) returns (r: Balances)
    ensures r == SumDelta(fixtures, posted)
  {
    var totals: Balances := map[];
    for i := 0 to |fixtures|
      invariant totals == Totals(fixtures[..i], posted)
    {
      assert fixtures[..i + 1][..i] == fixtures[..i];
      if fixtures[i].event.id in posted {
        totals := AddDelta(totals, fixtures[i].expectedDelta);
      }
    }
    assert fixtures[..|fixtures|] == fixtures;
    r := NonZero(totals);
  }

  // ---------------------------------------------------------------- plans --

  /** The event ids of the fixtures that should move money. */
  function Ids(fixtures: seq<Fixture>): set<string> {
    set i | 0 <= i < |fixtures| && fixtures[i].expectedDelta != map[] :: fixtures[i].event.id
  }

  function Clean(kit: Kit, e: Event, ts: int): Delivery {
    var body := kit.serialize(e);
    Delivery(body, Sign(kit.digest, body, kit.secret, ts, [], false, None), e.id, 0.0, 0.0, false, None)
  }

  function Cleans(kit: Kit, fixtures: seq<Fixture>, ts: int): (r: seq<Delivery>)
    ensures |r| == |fixtures| && forall i :: 0 <= i < |fixtures| ==> r[i] == Clean(kit, fixtures[i].event, ts)
  {
    seq(|fixtures|, (i: int) requires 0 <= i < |fixtures| => Clean(kit, fixtures[i].event, ts))
  }

  function Copies(d: Delivery, n: nat): (r: seq<Delivery>)
    ensures |r| == n && forall i :: 0 <= i < n ==> r[i] == d
  {
    seq(n, (i: int) => d)
  }

  function Backwards(fixtures: seq<Fixture>): (r: seq<Fixture>)
    ensures |r| == |fixtures| && forall i :: 0 <= i < |r| ==> r[i] == fixtures[|fixtures| - 1 - i]
  {
    seq(|fixtures|, (i: int) requires 0 <= i < |fixtures| => fixtures[|fixtures| - 1 - i])
  }

  function TwinOf(e: Event): Event {
    e.(id := e.id + "_dup")
  }

  function Tampered(body: Bytes): Option<Bytes> {
    match Flip(body, DataStart(body, 0))
    case None => None
    case Some((tampered, _)) => Some(tampered)
  }

  function Rejected(target: Fixture, body: Bytes, header: string): seq<Delivery> {
    [Delivery(body, header, target.event.id, 0.0, 0.0, true, Some(INVALID_SIGNATURE))]
  }

  /** The ValueErrors of plan(). */
  function Refusal(kit: Kit, fault: Fault, fixtures: seq<Fixture>, params: Params): Option<PlanError> {
    if fixtures == [] then Some(NoFixtures)
    else
      match fault
      case Duplicated | ConcurrentDuplicate => if params.n < 2 then Some(TooFewCopies) else None
      case Reorder =>
        if |fixtures| < 2 then Some(TooFewFixtures)
        else if params.order != "reverse" then Some(UnsupportedOrder)
        else None
      case TamperBody => if Tampered(kit.serialize(fixtures[0].event)).None? then Some(NoDigit) else None
      case StaleTimestamp => if params.ageS <= DEFAULT_TOLERANCE_SECONDS then Some(AgeInsideTolerance) else None
      case _ => None
  }

  function PlanDeliveries(kit: Kit, fault: Fault, fixtures: seq<Fixture>, params: Params, ts: int): seq<Delivery>
    requires Refusal(kit, fault, fixtures, params).None?
  {
    var target, e := fixtures[0], fixtures[0].event;
    var body, clean := kit.serialize(e), Clean(kit, e, ts);
    match fault
    case NoFault => Cleans(kit, fixtures, ts)
    case Duplicated | ConcurrentDuplicate => Copies(clean, params.n)
    case DuplicateObject => [clean, Clean(kit, TwinOf(e), ts)]
    case Reorder => Cleans(kit, Backwards(fixtures), ts)
    case Delay =>
      if params.pastTolerance then
        [Clean(kit, e, ts - (DEFAULT_TOLERANCE_SECONDS + STALE_MARGIN_SECONDS))
         .(delayBefore := params.seconds, expectRejected := true)]
      else [clean.(delayBefore := params.seconds)]
    case Drop => []
    case Respond500 => [clean, clean]
    case TamperBody => Rejected(target, Tampered(body).value, clean.header)
    case TruncateBody => Rejected(target, body[..|body| / 2], clean.header)
    case StaleTimestamp => Rejected(target, body, Clean(kit, e, ts - params.ageS).header)
    case DowngradeScheme =>
      Rejected(target, body, Sign(kit.digest, body, kit.secret, ts, [], false, Some({"v0"})))
    case PartialWrite => [clean]
    case SlowLoris => [clean.(slowLoris := params.hold)]
  }

  function Posting(fixtures: seq<Fixture>, posted: set<string>): Expectation {
    Expectation(posted, {}, SumDelta(fixtures, posted), false)
  }

  function PlanExpectation(fault: Fault, fixtures: seq<Fixture>, params: Params): Expectation
    requires fixtures != []
  {
    var targetPosted := Ids([fixtures[0]]);
    match fault
    case NoFault | Reorder => Posting(fixtures, Ids(fixtures))
    case Delay =>
      if params.pastTolerance then Posting(fixtures, {}).(rejected := {fixtures[0].event.id})
      else Posting(fixtures, targetPosted)
    case Drop => Expectation({}, {}, map[], true)
    case TamperBody | TruncateBody | StaleTimestamp | DowngradeScheme =>
      Expectation({}, {fixtures[0].event.id}, map[], false)
    case _ => Posting(fixtures, targetPosted)
  }

  function Plan(kit: Kit, fault: Fault, fixtures: seq<Fixture>, params: Params, ts: int): Result<FaultPlan, PlanError> {
    match Refusal(kit, fault, fixtures, params)
    case Some(error) => Err(error)
    case None =>
      Ok(FaultPlan(
        fault, PlanDeliveries(kit, fault, fixtures, params, ts),
        fault == ConcurrentDuplicate, fault == Respond500,
        if fault == PartialWrite then Some(params.killAfter) else None, true,
        PlanExpectation(fault, fixtures, params)))
  }

  // ------------------------------------------------ what a plan sets --

  /** The switches each fault sets, and no other does. */
  lemma {:induction false} PlanSwitches(kit: Kit, fault: Fault, fixtures: seq<Fixture>, params: Params, ts: int, plan: FaultPlan)
    requires Plan(kit, fault, fixtures, params, ts) == Ok(plan)
    ensures plan.fault == fault && plan.redeliverAfterKill
    ensures plan.concurrent <==> fault == ConcurrentDuplicate
    ensures plan.force500 <==> fault == Respond500
    ensures plan.killWorkerAfter == if fault == PartialWrite then Some(params.killAfter) else None
    ensures forall d :: d in plan.deliveries ==>
      && d.delayBefore == (if fault == Delay then params.seconds else 0.0)
      && d.slowLoris == (if fault == SlowLoris then params.hold else 0.0)
      && (d.expectRejected <==>
            fault in {TamperBody, TruncateBody, StaleTimestamp, DowngradeScheme} || (fault == Delay && params.pastTolerance))
      && d.expectReason ==
           (if fault in {TamperBody, TruncateBody, StaleTimestamp, DowngradeScheme} then Some("invalid signature") else None)
    ensures plan.expectation.shouldReportBreak <==> fault == Drop
    ensures plan.expectation.rejected ==
      if fault in {TamperBody, TruncateBody, StaleTimestamp, DowngradeScheme} || (fault == Delay && params.pastTolerance)
      then {fixtures[0].event.id} else {}
  {
    hide Sign, Tampered, SumDelta;
  }

  /** How many deliveries each fault sends, and for whom. */
  lemma {:induction false} PlanSends(kit: Kit, fault: Fault, fixtures: seq<Fixture>, params: Params, ts: int, plan: FaultPlan)
    requires Plan(kit, fault, fixtures, params, ts) == Ok(plan)
    ensures |plan.deliveries| ==
      match fault
      case NoFault | Reorder => |fixtures|
      case Duplicated | ConcurrentDuplicate => params.n
      case DuplicateObject | Respond500 => 2
      case Drop => 0
      case _ => 1
    ensures forall k :: 0 <= k < |plan.deliveries| ==>
      plan.deliveries[k].eventId ==
        if fault == NoFault then fixtures[k].event.id
        else if fault == Reorder then fixtures[|fixtures| - 1 - k].event.id
        else if fault == DuplicateObject && k == 1 then fixtures[0].event.id + "_dup"
        else fixtures[0].event.id
  {
    hide Sign, Tampered, SumDelta;
  }

  /** What the one delivery of a back-dating fault is signed with: its own age, and a
      minute more than the tolerance. */
  lemma {:induction false} PlanBackdates(kit: Kit, fault: Fault, fixtures: seq<Fixture>, params: Params, ts: int, plan: FaultPlan)
    requires Plan(kit, fault, fixtures, params, ts) == Ok(plan)
    requires fault == StaleTimestamp || (fault == Delay && params.pastTolerance)
    ensures var body := kit.serialize(fixtures[0].event);
      var stamp := if fault == StaleTimestamp then ts - params.ageS else ts - (300 + 60);
      |plan.deliveries| == 1 && plan.deliveries[0].body == body
      && plan.deliveries[0].header == Sign(kit.digest, body, kit.secret, stamp, [], false, None)
  {
    hide Sign, Tampered, SumDelta;
  }

  /** What is sent in place of the body signed, always under a good header for that
      body: its first half, or the body with its first data digit changed. */
  lemma {:induction false} PlanTampers(kit: Kit, fault: Fault, fixtures: seq<Fixture>, params: Params, ts: int, plan: FaultPlan)
    requires Plan(kit, fault, fixtures, params, ts) == Ok(plan) && fault in {TamperBody, TruncateBody}
    ensures var body := kit.serialize(fixtures[0].event);
      && |plan.deliveries| == 1
      && plan.deliveries[0].header == Sign(kit.digest, body, kit.secret, ts, [], false, None)
      && var sent := plan.deliveries[0].body;
      && (fault == TruncateBody ==> sent <= body && |body| - 1 <= 2 * |sent| <= |body|)
      && (fault == TamperBody ==> exists i :: FirstDigitFlipped(body, DataStart(body, 0), sent, i))
  {
    hide Sign, SumDelta, DataStart, Flip;
    FlipChangesOneDigit(kit.serialize(fixtures[0].event));
  }

  /** A twin is the same payload under another id. */
  lemma {:induction false} TwinIsCopy(e: Event)
    ensures TwinOf(e).id == e.id + "_dup" && TwinOf(e).id != e.id
    ensures TwinOf(e).(id := e.id) == e && MoneyObjectId(TwinOf(e)) == MoneyObjectId(e)
  {
    assert |TwinOf(e).id| == |e.id| + 4;
  }

  /** When plan refuses its arguments, and with which complaint. */
  lemma {:induction false} PlanErrs(kit: Kit, fault: Fault, fixtures: seq<Fixture>, params: Params, ts: int)
    ensures Plan(kit, fault, fixtures, params, ts) == Err(NoFixtures) <==> fixtures == []
    ensures Plan(kit, fault, fixtures, params, ts) == Err(TooFewCopies) <==>
      fixtures != [] && (fault == Duplicated || fault == ConcurrentDuplicate) && params.n < 2
    ensures Plan(kit, fault, fixtures, params, ts) == Err(TooFewFixtures) <==> |fixtures| == 1 && fault == Reorder
    ensures Plan(kit, fault, fixtures, params, ts) == Err(UnsupportedOrder) <==>
      |fixtures| >= 2 && fault == Reorder && params.order != "reverse"
    ensures Plan(kit, fault, fixtures, params, ts) == Err(AgeInsideTolerance) <==>
      fixtures != [] && fault == StaleTimestamp && params.ageS <= 300
    ensures Plan(kit, fault, fixtures, params, ts) == Err(NoDigit) <==>
      fixtures != [] && fault == TamperBody && Flip(kit.serialize(fixtures[0].event), DataStart(kit.serialize(fixtures[0].event), 0)).None?
  {
    hide Sign, SumDelta, Flip, DataStart;
  }
}
