/** What a plan's deliveries come to at the gate: exactly the events the plan means
    to get through pass verification, in the plan's order, and every forged one is
    refused by the signature check. */
module Deliveries {
  import opened Wrappers
  import opened Mapping
  import opened Fixtures
  import opened Signature
  import opened Gate
  import opened Faults

  // The harness and the endpoint it attacks: they share the secret.
  datatype Site = Site(kit: Kit, parse: Bytes -> Parsed)

  /** What the harness may send of an event's body: the body, its first half, or the
      body with one digit changed. */
  predicate Variant(body: Bytes, sent: Bytes) {
    sent == body || sent == body[..|body| / 2] || Tampered(body) == Some(sent)
  }

  /** What is taken of the digest and the JSON codec on one event: the parser reads
      back what the harness writes, and the digest tells the body from its variants. */
  ghost predicate SaneOn(site: Site, e: Event) {
    var body := site.kit.serialize(e);
    && body != [] && site.parse(body) == AnEvent(e)
    && forall ts, sent :: Variant(body, sent) && sent != body ==>
      site.kit.digest(site.kit.secret, ts, sent) != site.kit.digest(site.kit.secret, ts, body)
  }

  predicate Known(fixtures: seq<Fixture>, e: Event) {
    (fixtures != [] && e == TwinOf(fixtures[0].event)) || exists i :: 0 <= i < |fixtures| && fixtures[i].event == e
  }

  /** A hex digest, and both sane on the events the plans over these fixtures send. */
  ghost predicate Sane(site: Site, fixtures: seq<Fixture>) {
    HexDigests(site.kit.digest) && forall e :: Known(fixtures, e) ==> SaneOn(site, e)
  }

  /** Bodies within the endpoint's size cap, the twin's included. */
  ghost predicate Fits(site: Site, fixtures: seq<Fixture>) {
    && (forall i :: 0 <= i < |fixtures| ==> |site.kit.serialize(fixtures[i].event)| <= MAX_BODY_BYTES)
    && (fixtures != [] ==> |site.kit.serialize(TwinOf(fixtures[0].event))| <= MAX_BODY_BYTES)
  }

  /** The plan's deliveries, and the redelivery after a kill. */
  function AllSent(plan: FaultPlan): seq<Delivery> {
    plan.deliveries +
    if plan.killWorkerAfter.Some? && plan.redeliverAfterKill && plan.deliveries != [] then [plan.deliveries[0]] else []
  }

  ghost function AtGate(site: Site, d: Delivery, at: int): Gated {
    GateOf(site.kit.digest, site.parse, d.body, d.header, site.kit.secret, at)
  }

  ghost function Gates(site: Site, sent: seq<Delivery>, at: seq<int>): (r: seq<Gated>)
    requires |at| == |sent|
    ensures |r| == |sent| && forall k :: 0 <= k < |r| ==> r[k] == AtGate(site, sent[k], at[k])
  {
    seq(|sent|, (k: int) requires 0 <= k < |sent| && |at| == |sent| => AtGate(site, sent[k], at[k]))
  }

  function Through(gates: seq<Gated>): seq<Event> {
    if gates == [] then []
    else
      Through(gates[..|gates| - 1]) +
      match gates[|gates| - 1]
      case Passed(event) => [event]
      case BadRequest(_) => []
  }

  /** The events of the deliveries that pass, in order; at says when each arrives. */
  ghost function Passing(site: Site, sent: seq<Delivery>, at: seq<int>): seq<Event>
    requires |at| == |sent|
  {
    Through(Gates(site, sent, at))
  }

  /** Time does not run backwards, and what is meant to get through arrives inside
      the tolerance. */
  ghost predicate InTime(sent: seq<Delivery>, ts: int, at: seq<int>) {
    && |at| == |sent|
    && forall k :: 0 <= k < |sent| ==>
      ts <= at[k] && (!sent[k].expectRejected ==> at[k] <= ts + DEFAULT_TOLERANCE_SECONDS)
  }

  function EventsOf(fixtures: seq<Fixture>): (r: seq<Event>)
    ensures |r| == |fixtures| && forall i :: 0 <= i < |r| ==> r[i] == fixtures[i].event
  {
    seq(|fixtures|, (i: int) requires 0 <= i < |fixtures| => fixtures[i].event)
  }

  predicate Forges(fault: Fault) {
    fault in {TamperBody, TruncateBody, StaleTimestamp, DowngradeScheme}
  }

  /** The fixtures a plan means the system to record. */
  function Intended(fault: Fault, fixtures: seq<Fixture>, params: Params): seq<Fixture> {
    if fixtures == [] || Forges(fault) || fault == Drop || (fault == Delay && params.pastTolerance) then []
    else if fault == NoFault then fixtures
    else if fault == Reorder then Backwards(fixtures)
    else [fixtures[0]]
  }

  /** The events its deliveries carry, with every repetition and the twin. */
  function Carried(fault: Fault, fixtures: seq<Fixture>, params: Params): seq<Event> {
    if Intended(fault, fixtures, params) == [] then []
    else
      var e := fixtures[0].event;
      match fault
      case NoFault | Reorder => EventsOf(Intended(fault, fixtures, params))
      case Duplicated | ConcurrentDuplicate => if params.n < 0 then [] else seq(params.n, (i: int) => e)
      case DuplicateObject => [e, TwinOf(e)]
      case Respond500 | PartialWrite => [e, e]
      case _ => [e]
  }

  lemma {:induction false} CleanPasses(site: Site, e: Event, ts: int, at: int, d: Delivery)
    requires HexDigests(site.kit.digest) && SaneOn(site, e) && |site.kit.serialize(e)| <= MAX_BODY_BYTES
    requires d.body == site.kit.serialize(e) && d.header == Clean(site.kit, e, ts).header
    requires ts <= at <= ts + DEFAULT_TOLERANCE_SECONDS
    ensures AtGate(site, d, at) == Passed(e)
  {
    SignedIsAccepted(site.kit.digest, d.body, site.kit.secret, ts, [], false, None, site.kit.secret, DEFAULT_TOLERANCE_SECONDS, at);
  }

  lemma {:induction false} StaleRefused(site: Site, e: Event, ts: int, at: int, d: Delivery)
    requires HexDigests(site.kit.digest) && SaneOn(site, e) && |site.kit.serialize(e)| <= MAX_BODY_BYTES
    requires d.body == site.kit.serialize(e) && d.header == Clean(site.kit, e, ts).header
    requires at > ts + DEFAULT_TOLERANCE_SECONDS
    ensures AtGate(site, d, at) == BadRequest(INVALID_SIGNATURE)
  {
    SignedIsAccepted(site.kit.digest, d.body, site.kit.secret, ts, [], false, None, site.kit.secret, DEFAULT_TOLERANCE_SECONDS, at);
  }

  lemma {:induction false} ChangedRefused(site: Site, e: Event, ts: int, at: int, d: Delivery)
    requires HexDigests(site.kit.digest) && SaneOn(site, e) && |d.body| <= MAX_BODY_BYTES
    requires Variant(site.kit.serialize(e), d.body) && d.body != site.kit.serialize(e) && d.header == Clean(site.kit, e, ts).header
    ensures AtGate(site, d, at) == BadRequest(INVALID_SIGNATURE)
  {
    ChangedBodyRefused(site.kit.digest, site.kit.serialize(e), d.body, site.kit.secret, ts, DEFAULT_TOLERANCE_SECONDS, at);
  }

  lemma {:induction false} TamperedRefused(site: Site, e: Event, ts: int, at: int, d: Delivery)
    requires HexDigests(site.kit.digest) && SaneOn(site, e) && |site.kit.serialize(e)| <= MAX_BODY_BYTES
    requires Tampered(site.kit.serialize(e)) == Some(d.body) && d.header == Clean(site.kit, e, ts).header
    ensures AtGate(site, d, at) == BadRequest(INVALID_SIGNATURE)
  {
    FlipChangesOneDigit(site.kit.serialize(e));
    ChangedRefused(site, e, ts, at, d);
  }

  lemma {:induction false} TruncatedRefused(site: Site, e: Event, ts: int, at: int, d: Delivery)
    requires HexDigests(site.kit.digest) && SaneOn(site, e) && |site.kit.serialize(e)| <= MAX_BODY_BYTES
    requires d.body == site.kit.serialize(e)[..|site.kit.serialize(e)| / 2] && d.header == Clean(site.kit, e, ts).header
    ensures AtGate(site, d, at) == BadRequest(INVALID_SIGNATURE)
  {
    assert |d.body| < |site.kit.serialize(e)|;
    ChangedRefused(site, e, ts, at, d);
  }

  lemma {:induction false} DowngradedRefused(site: Site, e: Event, ts: int, at: int, d: Delivery)
    requires HexDigests(site.kit.digest) && SaneOn(site, e) && |d.body| <= MAX_BODY_BYTES
    requires d.header == Sign(site.kit.digest, site.kit.serialize(e), site.kit.secret, ts, [], false, Some({"v0"}))
    ensures AtGate(site, d, at) == BadRequest(INVALID_SIGNATURE)
  {
    NoDowngrade(site.kit.digest, site.kit.serialize(e), site.kit.secret, ts, [], false, {"v0"}, d.body, site.kit.secret,
                DEFAULT_TOLERANCE_SECONDS, at);
  }

  /** What each forgery sends. */
  lemma {:induction false} ForgedShape(
      site: Site, fault: Fault, fixtures: seq<Fixture>, params: Params, ts: int, plan: FaultPlan)
    requires Forges(fault) && Plan(site.kit, fault, fixtures, params, ts) == Ok(plan)
    ensures fixtures != [] && |plan.deliveries| == 1
    ensures var e, d := fixtures[0].event, plan.deliveries[0];
      var body := site.kit.serialize(e);
      match fault
      case TamperBody => Tampered(body) == Some(d.body) && d.header == Clean(site.kit, e, ts).header
      case TruncateBody => d.body == body[..|body| / 2] && d.header == Clean(site.kit, e, ts).header
      case StaleTimestamp =>
        && d.body == body && d.header == Clean(site.kit, e, ts - params.ageS).header
        && params.ageS > DEFAULT_TOLERANCE_SECONDS
      case _ => d.body == body && d.header == Sign(site.kit.digest, body, site.kit.secret, ts, [], false, Some({"v0"}))
  {
    hide Sign, Tampered, SumDelta;
  }

  /** A forged delivery is refused by the signature check and nothing else. */
  lemma {:induction false} ForgedRefused(
      site: Site, fault: Fault, fixtures: seq<Fixture>, params: Params, ts: int, plan: FaultPlan, at: int)
    requires Sane(site, fixtures) && Fits(site, fixtures) && Forges(fault) && ts <= at
    requires Plan(site.kit, fault, fixtures, params, ts) == Ok(plan)
    ensures |plan.deliveries| == 1
    ensures AtGate(site, plan.deliveries[0], at) == BadRequest(INVALID_SIGNATURE)
  {
    hide AtGate, HexDigests, SaneOn, Tampered, Plan, Clean, Sign;
    ForgedShape(site, fault, fixtures, params, ts, plan);
    var e, d := fixtures[0].event, plan.deliveries[0];
    assert Known(fixtures, e);
    match fault
    case TamperBody => TamperedRefused(site, e, ts, at, d);
    case TruncateBody => TruncatedRefused(site, e, ts, at, d);
    case StaleTimestamp => StaleRefused(site, e, ts - params.ageS, at, d);
    case DowngradeScheme => DowngradedRefused(site, e, ts, at, d);
  }

  lemma {:induction false} AllPass(gates: seq<Gated>, events: seq<Event>)
    requires |gates| == |events|
    requires forall k :: 0 <= k < |gates| ==> gates[k] == Passed(events[k])
    ensures Through(gates) == events
  {
    if gates != [] {
      var n := |gates| - 1;
      AllPass(gates[..n], events[..n]);
      assert events == events[..n] + [events[n]];
    }
  }

  lemma {:induction false} NonePasses(gates: seq<Gated>)
    requires forall k :: 0 <= k < |gates| ==> gates[k].BadRequest?
    ensures Through(gates) == []
  {
    if gates != [] {
      NonePasses(gates[..|gates| - 1]);
    }
  }

  /** Every delivery that is meant to get through is a clean one of a known event. */
  lemma {:induction false} SentIsClean(
      site: Site, fault: Fault, fixtures: seq<Fixture>, params: Params, ts: int, plan: FaultPlan, k: nat)
    requires Plan(site.kit, fault, fixtures, params, ts) == Ok(plan)
    requires Intended(fault, fixtures, params) != [] && k < |AllSent(plan)|
    ensures |AllSent(plan)| == |Carried(fault, fixtures, params)|
    ensures var d, e := AllSent(plan)[k], Carried(fault, fixtures, params)[k];
      && d.body == site.kit.serialize(e) && d.header == Clean(site.kit, e, ts).header && !d.expectRejected
      && Known(fixtures, e)
  {
    hide SumDelta, Flip, Tampered;
  }

  lemma {:induction false} CleanOnesPass(
      site: Site, fault: Fault, fixtures: seq<Fixture>, params: Params, ts: int, plan: FaultPlan, at: seq<int>)
    requires Sane(site, fixtures) && Fits(site, fixtures)
    requires Plan(site.kit, fault, fixtures, params, ts) == Ok(plan)
    requires InTime(AllSent(plan), ts, at)
    requires Intended(fault, fixtures, params) != [] && AllSent(plan) != []
    ensures Passing(site, AllSent(plan), at) == Carried(fault, fixtures, params)
    ensures forall k :: 0 <= k < |AllSent(plan)| ==> !AllSent(plan)[k].expectRejected
  {
    hide GateOf, SaneOn, Plan, Intended;
    var sent, carried := AllSent(plan), Carried(fault, fixtures, params);
    SentIsClean(site, fault, fixtures, params, ts, plan, 0);
    forall k | 0 <= k < |sent|
      ensures AtGate(site, sent[k], at[k]) == Passed(carried[k]) && !sent[k].expectRejected
    {
      SentIsClean(site, fault, fixtures, params, ts, plan, k);
      CleanPasses(site, carried[k], ts, at[k], sent[k]);
    }
    AllPass(Gates(site, sent, at), carried);
  }

  /** Apart from the forgeries only a delivery held past the tolerance is sent and not
      meant to be recorded. */
  lemma {:induction false} OnlyLateIsUnintended(
      site: Site, fault: Fault, fixtures: seq<Fixture>, params: Params, ts: int, plan: FaultPlan)
    requires Plan(site.kit, fault, fixtures, params, ts) == Ok(plan)
    requires Intended(fault, fixtures, params) == [] && !Forges(fault) && AllSent(plan) != []
    ensures fixtures != [] && |AllSent(plan)| == 1
    ensures var e, d := fixtures[0].event, AllSent(plan)[0];
      && d.body == site.kit.serialize(e)
      && d.header == Clean(site.kit, e, ts - (DEFAULT_TOLERANCE_SECONDS + STALE_MARGIN_SECONDS)).header
  {
    assert fault == Delay && params.pastTolerance;
  }

  lemma {:induction false} ForgedIsSent(
      site: Site, fault: Fault, fixtures: seq<Fixture>, params: Params, ts: int, plan: FaultPlan)
    requires Plan(site.kit, fault, fixtures, params, ts) == Ok(plan) && Forges(fault)
    ensures AllSent(plan) == plan.deliveries && |plan.deliveries| == 1
  {
  }

  lemma {:induction false} UnintendedRefused(
      site: Site, fault: Fault, fixtures: seq<Fixture>, params: Params, ts: int, plan: FaultPlan, k: nat, at: int)
    requires Sane(site, fixtures) && Fits(site, fixtures) && ts <= at
    requires Plan(site.kit, fault, fixtures, params, ts) == Ok(plan)
    requires Intended(fault, fixtures, params) == [] && k < |AllSent(plan)|
    ensures |AllSent(plan)| == 1
    ensures AtGate(site, AllSent(plan)[k], at) == BadRequest(INVALID_SIGNATURE)
  {
    hide AtGate, Plan, Intended, AllSent, Forges, SaneOn, HexDigests;
    if Forges(fault) {
      ForgedIsSent(site, fault, fixtures, params, ts, plan);
      ForgedRefused(site, fault, fixtures, params, ts, plan, at);
    } else {
      OnlyLateIsUnintended(site, fault, fixtures, params, ts, plan);
      assert Known(fixtures, fixtures[0].event);
      StaleRefused(site, fixtures[0].event, ts - (DEFAULT_TOLERANCE_SECONDS + STALE_MARGIN_SECONDS), at, AllSent(plan)[0]);
    }
  }

  lemma {:induction false} NothingSent(
      site: Site, fault: Fault, fixtures: seq<Fixture>, params: Params, ts: int, plan: FaultPlan)
    requires Plan(site.kit, fault, fixtures, params, ts) == Ok(plan) && AllSent(plan) == []
    ensures Intended(fault, fixtures, params) == []
  {
  }

  /** What passes the gate is what the plan carries: every clean delivery, in order,
      and nothing a fault forged or dated too far back. */
  lemma {:induction false} PassingIsCarried(
      site: Site, fault: Fault, fixtures: seq<Fixture>, params: Params, ts: int, plan: FaultPlan, at: seq<int>)
    requires Sane(site, fixtures) && Fits(site, fixtures)
    requires Plan(site.kit, fault, fixtures, params, ts) == Ok(plan)
    requires InTime(AllSent(plan), ts, at)
    ensures Passing(site, AllSent(plan), at) == Carried(fault, fixtures, params)
    ensures forall k :: 0 <= k < |AllSent(plan)| && AllSent(plan)[k].expectRejected ==>
      AtGate(site, AllSent(plan)[k], at[k]) == BadRequest(INVALID_SIGNATURE)
  {
    var sent := AllSent(plan);
    if Intended(fault, fixtures, params) == [] {
      forall k | 0 <= k < |sent| ensures AtGate(site, sent[k], at[k]) == BadRequest(INVALID_SIGNATURE) && |sent| == 1 {
        UnintendedRefused(site, fault, fixtures, params, ts, plan, k, at[k]);
      }
      NonePasses(Gates(site, sent, at));
    } else {
      if sent == [] {
        NothingSent(site, fault, fixtures, params, ts, plan);
      }
      CleanOnesPass(site, fault, fixtures, params, ts, plan, at);
    }
  }

  // ------------------------------------------------ a site that is sane --

  /** Two letters a byte, and an end mark. */
  function Letters(body: Bytes): string {
    if body == [] then "h"
    else [('a' as int + body[0] / 16) as char, ('a' as int + body[0] % 16) as char] + Letters(body[1..])
  }

  lemma {:induction false} LettersClean(body: Bytes)
    ensures Letters(body) != "" && ',' !in Letters(body)
  {
    if body != [] {
      LettersClean(body[1..]);
    }
  }

  lemma {:induction false} LettersTell(x: Bytes, y: Bytes)
    requires Letters(x) == Letters(y)
    ensures x == y
  {
    LettersLength(x);
    LettersLength(y);
    if x != [] {
      assert Letters(x)[0] == Letters(y)[0] && Letters(x)[1] == Letters(y)[1];
      assert Letters(x)[2..] == Letters(x[1..]) && Letters(y)[2..] == Letters(y[1..]);
      LettersTell(x[1..], y[1..]);
      assert x == [x[0]] + x[1..] && y == [y[0]] + y[1..];
    }
  }

  lemma {:induction false} LettersLength(x: Bytes)
    ensures |Letters(x)| == 2 * |x| + 1
  {
    if x != [] {
      LettersLength(x[1..]);
    }
  }

  function IndexOf(events: seq<Event>, e: Event): (i: nat)
    ensures e in events ==> i < |events| && events[i] == e
  {
    if events == [] || events[0] == e then 0 else IndexOf(events[1..], e) + 1
  }

  /** The event's place in a list, counted out in zeros. */
  function Tally(events: seq<Event>, e: Event): (body: Bytes)
    ensures |body| == IndexOf(events, e) + 1
  {
    seq(IndexOf(events, e) + 1, _ => 48)
  }

  function Untally(events: seq<Event>, body: Bytes): Parsed {
    if 1 <= |body| <= |events| then AnEvent(events[|body| - 1]) else NotJson
  }

  function TallySite(events: seq<Event>, secret: string): Site {
    Site(Kit((_, _, body) => Letters(body), (e: Event) => Tally(events, e), secret), (body: Bytes) => Untally(events, body))
  }

  /** What is taken of the digest and the codec can be had, for any fixtures. */
  lemma {:induction false} SaneSite(fixtures: seq<Fixture>, secret: string) returns (site: Site)
    ensures Sane(site, fixtures) && site.kit.secret == secret
    ensures |fixtures| < MAX_BODY_BYTES ==> Fits(site, fixtures)
  {
    var events := EventsOf(fixtures) + if fixtures == [] then [] else [TwinOf(fixtures[0].event)];
    site := TallySite(events, secret);
    forall s, ts, payload ensures site.kit.digest(s, ts, payload) != "" && ',' !in site.kit.digest(s, ts, payload) {
      LettersClean(payload);
    }
    forall e | Known(fixtures, e) ensures e in events {
      if i :| 0 <= i < |fixtures| && fixtures[i].event == e {
        assert events[i] == e;
      }
    }
    forall e | e in events ensures SaneOn(site, e) && |site.kit.serialize(e)| <= |events| {
      TallyIsSane(events, secret, e);
    }
    forall i | 0 <= i < |fixtures| ensures Known(fixtures, fixtures[i].event) {
    }
  }

  lemma {:induction false} TallyIsSane(events: seq<Event>, secret: string, e: Event)
    requires e in events
    ensures SaneOn(TallySite(events, secret), e) && |Tally(events, e)| <= |events|
  {
    var body := Tally(events, e);
    forall sent | sent != body ensures Letters(sent) != Letters(body) {
      if Letters(sent) == Letters(body) {
        LettersTell(sent, body);
      }
    }
  }
}
