/** What a scenario run observed and the verdict on it (harness/runner.py). */
module Verdict {
  import opened Wrappers
  import opened Ledger
  import opened Faults

  datatype Observation = Observation(
    ledgerDiff: Balances, invariantAfter: bool, posted: set<string>, transactions: nat, quiescent: bool,
    acceptedRejected: seq<string>, wrongReason: seq<string>, reconReported: bool, responsive: Option<bool>)

  datatype Broken =
    | InvariantViolation
    | LedgerDiffMismatch(promised: Balances, observed: Balances)
    | AcceptedBadDelivery(eventId: string, posted: bool, answered: bool)
    | WrongRejectionReason(detail: string)
    | LostEvent(eventId: string)
    | DoublePost(transactions: nat, expected: nat)
    | NotQuiescent
    | ReconcilerMissedDrop
    | IngestUnresponsive

  /** Which breaks an observation holds against an expectation. */
  predicate Breaks(exp: Expectation, obs: Observation, b: Broken) {
    match b
    case InvariantViolation => !obs.invariantAfter
    case LedgerDiffMismatch(x, y) => x == exp.balancesDelta && y == obs.ledgerDiff && x != y
    case AcceptedBadDelivery(id, posted, answered) =>
      && posted == (id in exp.rejected && id in obs.posted)
      && answered == (id in obs.acceptedRejected)
      && (posted || answered)
    case WrongRejectionReason(detail) => detail in obs.wrongReason
    case LostEvent(id) => id in exp.posted && id !in obs.posted
    case DoublePost(n, m) => n == obs.transactions && m == |exp.posted| && n > m
    case NotQuiescent => !obs.quiescent
    case ReconcilerMissedDrop => exp.shouldReportBreak && !obs.reconReported
    case IngestUnresponsive => obs.responsive == Some(false)
  }

  function Severity(b: Broken): nat {
    match b
    case InvariantViolation => 0
    case LedgerDiffMismatch(_, _) => 1
    case AcceptedBadDelivery(_, _, _) => 2
    case WrongRejectionReason(_) => 3
    case LostEvent(_) => 4
    case DoublePost(_, _) => 5
    case NotQuiescent => 6
    case ReconcilerMissedDrop => 7
    case IngestUnresponsive => 8
  }

  /** breaks holds exactly the breaks of the first kinds, most severe first. */
  ghost predicate UpTo(exp: Expectation, obs: Observation, breaks: seq<Broken>, kinds: nat) {
    && (forall b :: b in breaks <==> Breaks(exp, obs, b) && Severity(b) < kinds)
    && (forall i, j :: 0 <= i < j < |breaks| ==> Severity(breaks[i]) <= Severity(breaks[j]))
  }

  ghost predicate OfKind(exp: Expectation, obs: Observation, found: seq<Broken>, kind: nat) {
    forall b :: b in found <==> Breaks(exp, obs, b) && Severity(b) == kind
  }

  lemma {:induction false} ListMore(exp: Expectation, obs: Observation, breaks: seq<Broken>, found: seq<Broken>, kind: nat)
    requires UpTo(exp, obs, breaks, kind) && OfKind(exp, obs, found, kind)
    ensures UpTo(exp, obs, breaks + found, kind + 1)
  {
    var all := breaks + found;
    forall i, j | 0 <= i < j < |all| ensures Severity(all[i]) <= Severity(all[j]) {
      assert i < |breaks| ==> breaks[i] in breaks;
      assert i >= |breaks| ==> found[i - |breaks|] in found;
      assert j >= |breaks| ==> found[j - |breaks|] in found;
    }
  }

  method AcceptedBad(exp: Expectation, obs: Observation) returns (found: seq<Broken>)
    ensures OfKind(exp, obs, found, 2)
  {
    found := [];
    var refused := exp.rejected * obs.posted;
    var bad := refused + set id | id in obs.acceptedRejected;
    var rest := bad;
    while rest != {}
      invariant rest <= bad
      invariant forall b :: b in found <==>
        Breaks(exp, obs, b) && b.AcceptedBadDelivery? && b.eventId in bad && b.eventId !in rest
      decreases |rest|
    {
      var id :| id in rest;
      found := found + [AcceptedBadDelivery(id, id in refused, id in obs.acceptedRejected)];
      rest := rest - {id};
    }
  }

  method Lost(exp: Expectation, obs: Observation) returns (found: seq<Broken>)
    ensures OfKind(exp, obs, found, 4)
  {
    found := [];
    var lost := exp.posted - obs.posted;
    var rest := lost;
    while rest != {}
      invariant rest <= lost
      invariant forall b :: b in found <==> b.LostEvent? && b.eventId in lost && b.eventId !in rest
      decreases |rest|
    {
      var id :| id in rest;
      found := found + [LostEvent(id)];
      rest := rest - {id};
    }
  }

  method WrongReasons(exp: Expectation, obs: Observation) returns (found: seq<Broken>)
    ensures OfKind(exp, obs, found, 3)
  {
    found := [];
    for i := 0 to |obs.wrongReason|
      invariant forall b :: b in found <==> b.WrongRejectionReason? && b.detail in obs.wrongReason[..i]
    {
      assert obs.wrongReason[..i + 1] == obs.wrongReason[..i] + [obs.wrongReason[i]];
      found := found + [WrongRejectionReason(obs.wrongReason[i])];
    }
    assert obs.wrongReason[..|obs.wrongReason|] == obs.wrongReason;
  }

  /** The kinds that an observation shows at most once. */
  predicate Single(exp: Expectation, obs: Observation, b: Broken) {
    match b
    case AcceptedBadDelivery(_, _, _) | WrongRejectionReason(_) | LostEvent(_) => false
    case LedgerDiffMismatch(x, y) => x == exp.balancesDelta && y == obs.ledgerDiff
    case DoublePost(n, m) => n == obs.transactions && m == |exp.posted|
    case _ => true
  }

  method Report(exp: Expectation, obs: Observation, before: seq<Broken>, holds: bool, b: Broken) returns (breaks: seq<Broken>)
    requires Single(exp, obs, b) && holds == Breaks(exp, obs, b)
    requires UpTo(exp, obs, before, Severity(b))
    ensures UpTo(exp, obs, breaks, Severity(b) + 1)
  {
    var found := if holds then [b] else [];
    assert OfKind(exp, obs, found, Severity(b)) by {
      forall c | Breaks(exp, obs, c) && Severity(c) == Severity(b) ensures c == b {
      }
    }
    ListMore(exp, obs, before, found, Severity(b));
    breaks := before + found;
  }

  method DetectPerEvent(exp: Expectation, obs: Observation, before: seq<Broken>) returns (breaks: seq<Broken>)
    requires UpTo(exp, obs, before, 2)
    ensures UpTo(exp, obs, breaks, 5)
  {
    var bad := AcceptedBad(exp, obs);
    ListMore(exp, obs, before, bad, 2);
    var wrong := WrongReasons(exp, obs);
    ListMore(exp, obs, before + bad, wrong, 3);
    var lost := Lost(exp, obs);
    ListMore(exp, obs, before + bad + wrong, lost, 4);
    breaks := before + bad + wrong + lost;
  }

  method DetectAfterwards(exp: Expectation, obs: Observation, before: seq<Broken>) returns (breaks: seq<Broken>)
    requires UpTo(exp, obs, before, 5)
    ensures UpTo(exp, obs, breaks, 9)
  {
    hide UpTo;
    breaks := Report(exp, obs, before, obs.transactions > |exp.posted|, DoublePost(obs.transactions, |exp.posted|));
    breaks := Report(exp, obs, breaks, !obs.quiescent, NotQuiescent);
    breaks := Report(exp, obs, breaks, exp.shouldReportBreak && !obs.reconReported, ReconcilerMissedDrop);
    breaks := Report(exp, obs, breaks, obs.responsive == Some(false), IngestUnresponsive);
  }

  /** When each kind of break is among those an observation holds, and with what. */
  lemma {:induction false} KindsAre(exp: Expectation, obs: Observation, breaks: seq<Broken>)
    requires forall b :: b in breaks <==> Breaks(exp, obs, b)
    ensures InvariantViolation in breaks <==> !obs.invariantAfter
    ensures forall x, y :: LedgerDiffMismatch(x, y) in breaks <==>
      x == exp.balancesDelta && y == obs.ledgerDiff && x != y
    ensures forall id, posted, answered :: AcceptedBadDelivery(id, posted, answered) in breaks <==>
      && (posted || answered)
      && (posted <==> id in exp.rejected && id in obs.posted)
      && (answered <==> id in obs.acceptedRejected)
    ensures forall detail :: WrongRejectionReason(detail) in breaks <==> detail in obs.wrongReason
    ensures forall id :: LostEvent(id) in breaks <==> id in exp.posted && id !in obs.posted
    ensures forall n, m :: DoublePost(n, m) in breaks <==> n == obs.transactions && m == |exp.posted| && n > m
    ensures NotQuiescent in breaks <==> !obs.quiescent
    ensures ReconcilerMissedDrop in breaks <==> exp.shouldReportBreak && !obs.reconReported
    ensures IngestUnresponsive in breaks <==> obs.responsive == Some(false)
  {
  }

  lemma {:induction false} AllListed(exp: Expectation, obs: Observation, breaks: seq<Broken>)
    requires UpTo(exp, obs, breaks, 9)
    ensures forall b :: b in breaks <==> Breaks(exp, obs, b)
    ensures forall i, j :: 0 <= i < j < |breaks| ==> Severity(breaks[i]) <= Severity(breaks[j])
    ensures breaks == [] <==> forall b :: !Breaks(exp, obs, b)
  {
    hide Breaks;
    forall b ensures Severity(b) < 9 {
    }
    assert breaks != [] ==> breaks[0] in breaks;
  }

  /** detect_breaks: everything the observation holds against the plan, most severe
      first, and nothing else; nothing exactly when all that was promised is there. */
  method DetectBreaks(plan: FaultPlan, obs: Observation) returns (breaks: seq<Broken>)
    ensures forall b :: b in breaks <==> Breaks(plan.expectation, obs, b)
    ensures forall i, j :: 0 <= i < j < |breaks| ==> Severity(breaks[i]) <= Severity(breaks[j])
    ensures InvariantViolation in breaks <==> !obs.invariantAfter
    ensures forall x, y :: LedgerDiffMismatch(x, y) in breaks <==>
      x == plan.expectation.balancesDelta && y == obs.ledgerDiff && x != y
    ensures forall id, posted, answered :: AcceptedBadDelivery(id, posted, answered) in breaks <==>
      && (posted || answered)
      && (posted <==> id in plan.expectation.rejected && id in obs.posted)
      && (answered <==> id in obs.acceptedRejected)
    ensures forall detail :: WrongRejectionReason(detail) in breaks <==> detail in obs.wrongReason
    ensures forall id :: LostEvent(id) in breaks <==> id in plan.expectation.posted && id !in obs.posted
    ensures forall n, m :: DoublePost(n, m) in breaks <==>
      n == obs.transactions && m == |plan.expectation.posted| && n > m
    ensures NotQuiescent in breaks <==> !obs.quiescent
    ensures ReconcilerMissedDrop in breaks <==> plan.expectation.shouldReportBreak && !obs.reconReported
    ensures IngestUnresponsive in breaks <==> obs.responsive == Some(false)
    ensures breaks == [] <==>
      && obs.invariantAfter && obs.ledgerDiff == plan.expectation.balancesDelta
      && plan.expectation.rejected !! obs.posted && obs.acceptedRejected == [] && obs.wrongReason == []
      && plan.expectation.posted <= obs.posted && obs.transactions <= |plan.expectation.posted|
      && obs.quiescent && (plan.expectation.shouldReportBreak ==> obs.reconReported) && obs.responsive != Some(false)
  {
    var exp := plan.expectation;
    breaks := DetectFirst(exp, obs);
    hide UpTo, Breaks, Severity;
    breaks := DetectPerEvent(exp, obs, breaks);
    breaks := DetectAfterwards(exp, obs, breaks);
    AllListed(exp, obs, breaks);
    KindsAre(exp, obs, breaks);
    NothingBroken(exp, obs);
  }

  method DetectFirst(exp: Expectation, obs: Observation) returns (breaks: seq<Broken>)
    ensures UpTo(exp, obs, breaks, 2)
  {
    breaks := Report(exp, obs, [], !obs.invariantAfter, InvariantViolation);
    breaks := Report(exp, obs, breaks, obs.ledgerDiff != exp.balancesDelta,
                     LedgerDiffMismatch(exp.balancesDelta, obs.ledgerDiff));
  }

  lemma {:induction false} NoneListed(xs: seq<string>)
    ensures xs == [] <==> forall x :: x !in xs
  {
    if xs != [] {
      assert xs[0] in xs;
    }
  }

  /** An observation without a break is one that shows everything promised. */
  lemma {:induction false} NothingBroken(exp: Expectation, obs: Observation)
    ensures (forall b :: !Breaks(exp, obs, b)) <==>
      && obs.invariantAfter && obs.ledgerDiff == exp.balancesDelta
      && exp.rejected !! obs.posted && obs.acceptedRejected == [] && obs.wrongReason == []
      && exp.posted <= obs.posted && obs.transactions <= |exp.posted|
      && obs.quiescent && (exp.shouldReportBreak ==> obs.reconReported) && obs.responsive != Some(false)
  {
    if forall b :: !Breaks(exp, obs, b) {
      assert !Breaks(exp, obs, InvariantViolation) && !Breaks(exp, obs, NotQuiescent);
      assert !Breaks(exp, obs, ReconcilerMissedDrop) && !Breaks(exp, obs, IngestUnresponsive);
      assert !Breaks(exp, obs, LedgerDiffMismatch(exp.balancesDelta, obs.ledgerDiff));
      assert !Breaks(exp, obs, DoublePost(obs.transactions, |exp.posted|));
      forall id | id in exp.rejected ensures id !in obs.posted {
        assert !Breaks(exp, obs, AcceptedBadDelivery(id, id in obs.posted, id in obs.acceptedRejected));
      }
      forall id | id in exp.posted ensures id in obs.posted {
        assert !Breaks(exp, obs, LostEvent(id));
      }
      forall id | id in obs.acceptedRejected
        ensures Breaks(exp, obs, AcceptedBadDelivery(id, id in exp.rejected && id in obs.posted, true))
      {
      }
      NoneListed(obs.acceptedRejected);
      forall detail | detail in obs.wrongReason ensures Breaks(exp, obs, WrongRejectionReason(detail)) {
      }
      NoneListed(obs.wrongReason);
    }
  }

  /** Most severe first: a broken invariant leads, an unresponsive ingest comes last, and
      what the money shows stands before what the queue and the reports show. */
  lemma {:induction false} SeverityOrder(breaks: seq<Broken>, i: nat, j: nat)
    requires i < |breaks| && j < |breaks|
    requires forall p, q :: 0 <= p < q < |breaks| ==> Severity(breaks[p]) <= Severity(breaks[q])
    ensures breaks[i].InvariantViolation? && !breaks[j].InvariantViolation? ==> i < j
    ensures breaks[i].IngestUnresponsive? && !breaks[j].IngestUnresponsive? ==> j < i
    ensures breaks[i].LedgerDiffMismatch? && (breaks[j].AcceptedBadDelivery? || breaks[j].LostEvent?) ==> i < j
    ensures (breaks[i].AcceptedBadDelivery? || breaks[i].WrongRejectionReason?) && (breaks[j].LostEvent? || breaks[j].DoublePost?) ==> i < j
    ensures breaks[i].AcceptedBadDelivery? && breaks[j].WrongRejectionReason? ==> i < j
    ensures breaks[i].LostEvent? && breaks[j].DoublePost? ==> i < j
    ensures breaks[i].DoublePost? && (breaks[j].NotQuiescent? || breaks[j].ReconcilerMissedDrop?) ==> i < j
    ensures breaks[i].NotQuiescent? && breaks[j].ReconcilerMissedDrop? ==> i < j
  {
  }
}
