/** The Stripe-Signature header: sign prints it, verify parses it and fails closed
    (stripe_io/signature.py). HMAC-SHA256 is a function handed in. */
module Signature {
  import opened Wrappers

  type Byte = b: int | 0 <= b < 256
  type Bytes = seq<Byte>

  // Hex digest of "<timestamp>.<payload>" under a secret.
  type Digest = (string, int, Bytes) -> string

  const DEFAULT_TOLERANCE_SECONDS := 300

  /** What any hex digest is: not empty, and without the item separator. */
  ghost predicate HexDigests(digest: Digest) {
    forall secret, ts, payload :: digest(secret, ts, payload) != "" && ',' !in digest(secret, ts, payload)
  }

  // -------------------------------------------------------------- strings --

  function Split(s: string): (items: seq<string>)
    ensures items != []
  {
    if s == "" then [""]
    else
      var rest := Split(s[1..]);
      if s[0] == ',' then [""] + rest else [[s[0]] + rest[0]] + rest[1..]
  }

  function Join(items: seq<string>): string
    requires items != []
  {
    if |items| == 1 then items[0] else items[0] + "," + Join(items[1..])
  }

  lemma {:induction false} SplitItem(item: string)
    requires ',' !in item
    ensures Split(item) == [item]
  {
    if item != "" {
      SplitItem(item[1..]);
      assert item == [item[0]] + item[1..];
    }
  }

  lemma {:induction false} SplitFirst(item: string, rest: string)
    requires ',' !in item
    ensures Split(item + "," + rest) == [item] + Split(rest)
  {
    var s := item + "," + rest;
    if item == "" {
      assert s[1..] == rest;
    } else {
      SplitFirst(item[1..], rest);
      assert s[1..] == item[1..] + "," + rest;
      assert [s[0]] + item[1..] == item;
    }
  }

  lemma {:induction false} SplitJoin(items: seq<string>)
    requires items != [] && forall item :: item in items ==> ',' !in item
    ensures Split(Join(items)) == items
  {
    if |items| == 1 {
      SplitItem(items[0]);
    } else {
      SplitJoin(items[1..]);
      SplitFirst(items[0], Join(items[1..]));
    }
  }

  /** str.partition at the first '=', None when there is none. */
  function Partition(s: string): Option<(string, string)> {
    if s == "" then None
    else if s[0] == '=' then Some(("", s[1..]))
    else
      match Partition(s[1..])
      case None => None
      case Some((key, value)) => Some(([s[0]] + key, value))
  }

  lemma {:induction false} PartitionOf(key: string, value: string)
    requires '=' !in key
    ensures Partition(key + "=" + value) == Some((key, value))
  {
    var s := key + "=" + value;
    if key == "" {
      assert s[1..] == value;
    } else {
      PartitionOf(key[1..], value);
      assert [key[0]] + key[1..] == key;
      assert s[1..] == key[1..] + "=" + value;
    }
  }

  lemma {:induction false} PartitionInverse(s: string)
    requires Partition(s).Some?
    ensures var (key, value) := Partition(s).value; s == key + "=" + value && '=' !in key
  {
    if s[0] != '=' {
      PartitionInverse(s[1..]);
    }
  }

  // ------------------------------------------------------------- integers --

  function Digit(n: nat): char
    requires n < 10
  {
    ('0' as int + n) as char
  }

  predicate IsDigit(c: char) {
    '0' <= c <= '9'
  }

  function PrintNat(n: nat): string {
    if n < 10 then [Digit(n)] else PrintNat(n / 10) + [Digit(n % 10)]
  }

  function PrintInt(n: int): string {
    if n < 0 then "-" + PrintNat(-n) else PrintNat(n)
  }

  function ParseNat(s: string): Option<nat> {
    if s == "" || !IsDigit(s[|s| - 1]) then None
    else
      var d := s[|s| - 1] as int - '0' as int;
      if |s| == 1 then Some(d)
      else
        match ParseNat(s[..|s| - 1])
        case None => None
        case Some(n) => Some(10 * n + d)
  }

  /** int() on a decimal literal with an optional minus sign. */
  function ParseInt(s: string): Option<int> {
    var negative := s != "" && s[0] == '-';
    match ParseNat(if negative then s[1..] else s)
    case None => None
    case Some(n) =>
      var value: int := n;
      Some(if negative then -value else value)
  }

  lemma {:induction false} NatRoundTrip(n: nat)
    ensures PrintNat(n) != "" && forall c :: c in PrintNat(n) ==> IsDigit(c)
    ensures ParseNat(PrintNat(n)) == Some(n)
  {
    if n >= 10 {
      var front, last := PrintNat(n / 10), Digit(n % 10);
      NatRoundTrip(n / 10);
      assert PrintNat(n) == front + [last];
      assert (front + [last])[..|front|] == front;
      assert ParseNat(front + [last]) == Some(10 * (n / 10) + n % 10);
    }
  }

  lemma {:induction false} IntRoundTrip(n: int)
    ensures PrintInt(n) != "" && ',' !in PrintInt(n) && ParseInt(PrintInt(n)) == Some(n)
  {
    hide PrintNat, ParseNat;
    if n < 0 {
      NatRoundTrip(-n);
      assert PrintInt(n)[1..] == PrintNat(-n);
    } else {
      NatRoundTrip(n);
      assert PrintNat(n)[0] in PrintNat(n);
    }
  }

  // ----------------------------------------------------------------- sign --

  datatype Scheme = Scheme(name: string, digest: string)

  function V1Schemes(digest: Digest, payload: Bytes, secrets: seq<string>, ts: int): seq<Scheme> {
    seq(|secrets|, (i: int) requires 0 <= i < |secrets| => Scheme("v1", digest(secrets[i], ts, payload)))
  }

  function Allowed(schemes: seq<Scheme>, names: Option<set<string>>): (kept: seq<Scheme>)
    ensures forall s :: s in kept <==> s in schemes && (names.None? || s.name in names.value)
  {
    if schemes == [] then []
    else
      var earlier, last := Allowed(schemes[..|schemes| - 1], names), schemes[|schemes| - 1];
      assert schemes == schemes[..|schemes| - 1] + [last];
      if names.None? || last.name in names.value then earlier + [last] else earlier
  }

  function Schemes(digest: Digest, payload: Bytes, secret: string, ts: int, extraSecrets: seq<string>,
                   includeV0: bool, onlySchemes: Option<set<string>>): seq<Scheme> {
    var v1 := V1Schemes(digest, payload, [secret] + extraSecrets, ts);
    var wantsV0 := includeV0 || (onlySchemes.Some? && "v0" in onlySchemes.value);
    Allowed(v1 + (if wantsV0 then [Scheme("v0", digest(secret, ts, payload))] else []), onlySchemes)
  }

  function StampItem(ts: int): string {
    "t" + "=" + PrintInt(ts)
  }

  function V1Item(digest: string): string {
    "v1" + "=" + digest
  }

  function SchemeItem(s: Scheme): string {
    s.name + "=" + s.digest
  }

  function SignItems(digest: Digest, payload: Bytes, secret: string, ts: int, extraSecrets: seq<string>,
                     includeV0: bool, onlySchemes: Option<set<string>>): seq<string> {
    var schemes := Schemes(digest, payload, secret, ts, extraSecrets, includeV0, onlySchemes);
    [StampItem(ts)] + seq(|schemes|, (i: int) requires 0 <= i < |schemes| => SchemeItem(schemes[i]))
  }

  function Sign(digest: Digest, payload: Bytes, secret: string, ts: int, extraSecrets: seq<string>,
                includeV0: bool, onlySchemes: Option<set<string>>): string {
    Join(SignItems(digest, payload, secret, ts, extraSecrets, includeV0, onlySchemes))
  }

  // --------------------------------------------------------------- verify --

  datatype Reason = EmptyBody | MalformedItem | NotANumber | NotOneTimestamp | NoV1 | OutsideTolerance | NoMatch

  datatype Verdict = Accepted | Refused(reason: Reason) | BadTolerance

  predicate WellFormed(item: string) {
    var kv := Partition(item);
    && kv.Some? && kv.value.0 != "" && kv.value.1 != ""
    && (kv.value.0 == "t" ==> ParseInt(kv.value.1).Some?)
  }

  predicate IsTimestamp(item: string) {
    Partition(item).Some? && Partition(item).value.0 == "t"
  }

  /** Acceptance, said of the header's items and not of a parse: each is well
      formed, one and only one is a timestamp, it is recent, and some item is
      literally v1=<the digest of this payload at that time>. */
  ghost predicate Accepts(digest: Digest, payload: Bytes, header: string, secret: string, tolerance: int, now: int) {
    AcceptsItems(digest, payload, Split(header), secret, tolerance, now)
  }

  ghost predicate AcceptsItems(digest: Digest, payload: Bytes, items: seq<string>, secret: string, tolerance: int, now: int) {
    && payload != []
    && (forall item :: item in items ==> WellFormed(item))
    && exists i, ts :: OnlyTimestamp(items, i, ts) && -tolerance <= now - ts <= tolerance
         && V1Item(digest(secret, ts, payload)) in items
  }

  ghost predicate OnlyTimestamp(items: seq<string>, i: int, ts: int) {
    && 0 <= i < |items| && Partition(items[i]).Some?
    && IsTimestamp(items[i]) && ParseInt(Partition(items[i]).value.1) == Some(ts)
    && forall j :: 0 <= j < |items| && j != i ==> !IsTimestamp(items[j])
  }

  function Stamps(items: seq<string>): seq<int>
    requires forall item :: item in items ==> WellFormed(item)
  {
    if items == [] then []
    else
      var earlier, item := Stamps(items[..|items| - 1]), items[|items| - 1];
      assert item in items && WellFormed(item);
      if IsTimestamp(item) then earlier + [ParseInt(Partition(item).value.1).value] else earlier
  }

  function Candidates(items: seq<string>): seq<string> {
    if items == [] then []
    else
      var earlier, kv := Candidates(items[..|items| - 1]), Partition(items[|items| - 1]);
      if kv.Some? && kv.value.0 == "v1" then earlier + [kv.value.1] else earlier
  }

  lemma {:induction false} CandidatesAre(items: seq<string>, d: string)
    ensures d in Candidates(items) <==> V1Item(d) in items
  {
    if items != [] {
      var earlier, item := items[..|items| - 1], items[|items| - 1];
      CandidatesAre(earlier, d);
      assert items == earlier + [item];
      PartitionOf("v1", d);
      if Partition(item).Some? {
        PartitionInverse(item);
      }
    }
  }

  lemma {:induction false} NoStamps(items: seq<string>)
    requires forall item :: item in items ==> WellFormed(item)
    ensures Stamps(items) == [] <==> forall j :: 0 <= j < |items| ==> !IsTimestamp(items[j])
  {
    if items != [] {
      NoStamps(items[..|items| - 1]);
      assert IsTimestamp(items[|items| - 1]) ==> Stamps(items) != [];
    }
  }

  lemma {:induction false} OneStamp(items: seq<string>, ts: int)
    requires forall item :: item in items ==> WellFormed(item)
    ensures Stamps(items) == [ts] <==> exists i :: OnlyTimestamp(items, i, ts)
  {
    if items != [] {
      var n := |items| - 1;
      var earlier, last := items[..n], items[n];
      assert last in items;
      OneStamp(earlier, ts);
      NoStamps(earlier);
      if IsTimestamp(last) {
        if Stamps(items) == [ts] {
          var found := ParseInt(Partition(last).value.1).value;
          assert Stamps(items) == Stamps(earlier) + [found];
          assert |Stamps(items)| == |Stamps(earlier)| + 1;
          assert Stamps(items)[|Stamps(earlier)|] == found;
          assert OnlyTimestamp(items, n, ts);
        }
        if i :| OnlyTimestamp(items, i, ts) {
          assert i == n;
          assert forall j :: 0 <= j < n ==> earlier[j] == items[j];
        }
      } else {
        if i :| OnlyTimestamp(earlier, i, ts) {
          assert OnlyTimestamp(items, i, ts);
        }
        if i :| OnlyTimestamp(items, i, ts) {
          assert i != n && OnlyTimestamp(earlier, i, ts);
        }
      }
    }
  }

  /** What the first loop has read off the items so far. */
  ghost predicate ReadOff(items: seq<string>, timestamps: seq<int>, candidates: seq<string>) {
    (forall item :: item in items ==> WellFormed(item)) && timestamps == Stamps(items) && candidates == Candidates(items)
  }

  lemma {:induction false} ItemStep(before: seq<string>, item: string, timestamps: seq<int>, candidates: seq<string>)
    requires ReadOff(before, timestamps, candidates) && WellFormed(item)
    ensures ReadOff(
      before + [item],
      timestamps + if IsTimestamp(item) then [ParseInt(Partition(item).value.1).value] else [],
      candidates + if Partition(item).value.0 == "v1" then [Partition(item).value.1] else [])
  {
    hide Partition, ParseInt;
    assert (before + [item])[..|before|] == before;
  }

  lemma {:induction false} ReadAll(items: seq<string>, timestamps: seq<int>, candidates: seq<string>)
    requires ReadOff(items, timestamps, candidates)
    ensures (forall item :: item in items ==> WellFormed(item)) && timestamps == Stamps(items) && candidates == Candidates(items)
  {
  }

  /** What remains to check once every item is known to be well formed. */
  lemma {:induction false} AcceptsParsed(digest: Digest, payload: Bytes, header: string, secret: string, tolerance: int, now: int)
    requires payload != [] && forall item :: item in Split(header) ==> WellFormed(item)
    ensures var stamps, candidates := Stamps(Split(header)), Candidates(Split(header));
      Accepts(digest, payload, header, secret, tolerance, now) <==>
      && |stamps| == 1 && -tolerance <= now - stamps[0] <= tolerance && digest(secret, stamps[0], payload) in candidates
  {
    hide WellFormed, Stamps, Candidates, Split;
    var items := Split(header);
    var stamps := Stamps(items);
    forall i, ts | OnlyTimestamp(items, i, ts) ensures stamps == [ts] && (digest(secret, ts, payload) in Candidates(items) <==> V1Item(digest(secret, ts, payload)) in items) {
      OneStamp(items, ts);
      CandidatesAre(items, digest(secret, ts, payload));
    }
    if |stamps| == 1 {
      assert stamps == [stamps[0]];
      OneStamp(items, stamps[0]);
      CandidatesAre(items, digest(secret, stamps[0], payload));
      hide OnlyTimestamp;
      var i :| OnlyTimestamp(items, i, stamps[0]);
    }
  }

  lemma {:induction false} MalformedRefused(digest: Digest, payload: Bytes, header: string, secret: string, tolerance: int, now: int)
    ensures payload == [] || (exists item :: item in Split(header) && !WellFormed(item)) ==>
      !Accepts(digest, payload, header, secret, tolerance, now)
  {
    hide WellFormed, Split;
  }

  /** verify, loops and all: it accepts exactly when the header does. */
  method Verify(digest: Digest, payload: Bytes, header: string, secret: string, tolerance: int, now: int)
    returns (verdict: Verdict)
    ensures verdict.BadTolerance? <==> tolerance <= 0
    ensures tolerance > 0 ==> (verdict.Accepted? <==> Accepts(digest, payload, header, secret, tolerance, now))
    ensures verdict == Refused(EmptyBody) <==> tolerance > 0 && payload == []
    ensures verdict in {Refused(MalformedItem), Refused(NotANumber)} <==>
      tolerance > 0 && payload != [] && exists item :: item in Split(header) && !WellFormed(item)
  {
    hide Accepts;
    if tolerance <= 0 {
      return BadTolerance;
    }
    MalformedRefused(digest, payload, header, secret, tolerance, now);
    if payload == [] {
      return Refused(EmptyBody);
    }
    var timestamps: seq<int> := [];
    var candidates: seq<string> := [];
    var items := Split(header);
    for i := 0 to |items|
      invariant ReadOff(items[..i], timestamps, candidates)
    {
      hide ReadOff, Partition, ParseInt;
      var kv := Partition(items[i]);
      assert items[i] in items;
      if kv.None? || kv.value.0 == "" || kv.value.1 == "" {
        assert !WellFormed(items[i]);
        return Refused(MalformedItem);
      }
      ghost var stamps, digests := timestamps, candidates;
      if kv.value.0 == "t" {
        var ts := ParseInt(kv.value.1);
        if ts.None? {
          assert !WellFormed(items[i]);
          return Refused(NotANumber);
        }
        timestamps := timestamps + [ts.value];
      } else if kv.value.0 == "v1" {
        candidates := candidates + [kv.value.1];
      }
      ItemStep(items[..i], items[i], stamps, digests);
      assert items[..i + 1] == items[..i] + [items[i]];
    }
    assert items[..|items|] == items;
    ReadAll(items, timestamps, candidates);
    AcceptsParsed(digest, payload, header, secret, tolerance, now);
    hide *;
    if |timestamps| != 1 {
      return Refused(NotOneTimestamp);
    }
    var ts := timestamps[0];
    if candidates == [] {
      return Refused(NoV1);
    }
    if now - ts > tolerance || ts - now > tolerance {
      return Refused(OutsideTolerance);
    }
    var expected := digest(secret, ts, payload);
    var matched := false;
    for i := 0 to |candidates|
      invariant matched <==> expected in candidates[..i]
    {
      assert candidates[..i + 1] == candidates[..i] + [candidates[i]];
      if expected == candidates[i] {
        matched := true;
      }
    }
    assert candidates[..|candidates|] == candidates;
    return if matched then Accepted else Refused(NoMatch);
  }

  // ------------------------------------------------------ printer and parser --

  predicate SignatureScheme(s: Scheme) {
    (s.name == "v1" || s.name == "v0") && s.digest != "" && ',' !in s.digest
  }

  lemma {:induction false} SchemesAre(digest: Digest, payload: Bytes, secret: string, ts: int, extraSecrets: seq<string>,
                   includeV0: bool, onlySchemes: Option<set<string>>)
    requires HexDigests(digest)
    ensures forall s :: s in Schemes(digest, payload, secret, ts, extraSecrets, includeV0, onlySchemes) ==>
      SignatureScheme(s) && (onlySchemes.Some? ==> s.name in onlySchemes.value)
  {
  }

  lemma {:induction false} SchemeItemClean(s: Scheme)
    requires SignatureScheme(s)
    ensures WellFormed(SchemeItem(s)) && ',' !in SchemeItem(s) && !IsTimestamp(SchemeItem(s))
    ensures Partition(SchemeItem(s)) == Some((s.name, s.digest))
  {
    PartitionOf(s.name, s.digest);
  }

  lemma {:induction false} StampItemClean(ts: int)
    ensures WellFormed(StampItem(ts)) && ',' !in StampItem(ts)
    ensures Partition(StampItem(ts)) == Some(("t", PrintInt(ts))) && ParseInt(PrintInt(ts)) == Some(ts)
  {
    IntRoundTrip(ts);
    PartitionOf("t", PrintInt(ts));
  }

  lemma {:induction false} V1ItemParts(d: string)
    ensures Partition(V1Item(d)) == Some(("v1", d))
  {
    PartitionOf("v1", d);
  }

  ghost predicate Printed(items: seq<string>, schemes: seq<Scheme>, ts: int) {
    && |items| == |schemes| + 1 && items[0] == StampItem(ts)
    && (forall s :: s in schemes ==> SignatureScheme(s))
    && forall j :: 1 <= j < |items| ==> items[j] == SchemeItem(schemes[j - 1])
  }

  /** The parser reads a printed header back: the stamp first, then the schemes. */
  lemma {:induction false} PrintedParts(items: seq<string>, schemes: seq<Scheme>, ts: int, j: int)
    requires Printed(items, schemes, ts) && 0 <= j < |items|
    ensures WellFormed(items[j]) && ',' !in items[j] && (IsTimestamp(items[j]) <==> j == 0)
    ensures j > 0 ==> Partition(items[j]) == Some((schemes[j - 1].name, schemes[j - 1].digest))
    ensures j == 0 ==> Partition(items[j]) == Some(("t", PrintInt(ts))) && ParseInt(PrintInt(ts)) == Some(ts)
  {
    if j == 0 {
      StampItemClean(ts);
    } else {
      assert schemes[j - 1] in schemes;
      SchemeItemClean(schemes[j - 1]);
    }
  }

  lemma {:induction false} PrintedReadsBack(items: seq<string>, schemes: seq<Scheme>, ts: int)
    requires Printed(items, schemes, ts)
    ensures Split(Join(items)) == items
    ensures forall item :: item in items ==> WellFormed(item)
    ensures forall i, other :: OnlyTimestamp(items, i, other) <==> i == 0 && other == ts
  {
    forall j | 0 <= j < |items| ensures WellFormed(items[j]) && ',' !in items[j] && (IsTimestamp(items[j]) <==> j == 0) {
      PrintedParts(items, schemes, ts, j);
    }
    PrintedParts(items, schemes, ts, 0);
    SplitJoin(items);
  }

  lemma {:induction false} PrintedDigests(items: seq<string>, schemes: seq<Scheme>, ts: int, d: string)
    requires Printed(items, schemes, ts)
    ensures V1Item(d) in items <==> Scheme("v1", d) in schemes
  {
    V1ItemParts(d);
    if j :| 0 <= j < |items| && items[j] == V1Item(d) {
      PrintedParts(items, schemes, ts, j);
      assert schemes[j - 1] == Scheme("v1", d);
    }
    if j :| 0 <= j < |schemes| && schemes[j] == Scheme("v1", d) {
      assert items[j + 1] == SchemeItem(schemes[j]);
    }
  }

  lemma {:induction false} PrintedItemsAccepted(digest: Digest, items: seq<string>, schemes: seq<Scheme>, ts: int,
                             payload: Bytes, endpoint: string, tolerance: int, now: int)
    requires Printed(items, schemes, ts)
    ensures AcceptsItems(digest, payload, items, endpoint, tolerance, now)
      <==> payload != [] && -tolerance <= now - ts <= tolerance && Scheme("v1", digest(endpoint, ts, payload)) in schemes
  {
    PrintedReadsBack(items, schemes, ts);
    PrintedDigests(items, schemes, ts, digest(endpoint, ts, payload));
    assert OnlyTimestamp(items, 0, ts);
  }

  /** What verify makes of any printed header. */
  lemma {:induction false} PrintedAccepted(digest: Digest, signed: Bytes, secret: string, ts: int, extraSecrets: seq<string>, includeV0: bool,
                        onlySchemes: Option<set<string>>, payload: Bytes, endpoint: string, tolerance: int, now: int)
    requires HexDigests(digest)
    ensures Accepts(digest, payload, Sign(digest, signed, secret, ts, extraSecrets, includeV0, onlySchemes), endpoint, tolerance, now)
      <==> payload != [] && -tolerance <= now - ts <= tolerance
           && Scheme("v1", digest(endpoint, ts, payload)) in Schemes(digest, signed, secret, ts, extraSecrets, includeV0, onlySchemes)
  {
    hide Schemes;
    var schemes := Schemes(digest, signed, secret, ts, extraSecrets, includeV0, onlySchemes);
    var items := SignItems(digest, signed, secret, ts, extraSecrets, includeV0, onlySchemes);
    SchemesAre(digest, signed, secret, ts, extraSecrets, includeV0, onlySchemes);
    PrintedReadsBack(items, schemes, ts);
    PrintedItemsAccepted(digest, items, schemes, ts, payload, endpoint, tolerance, now);
  }

  /** Printer and parser: a header sign printed with the endpoint's secret among
      its v1 secrets, in any position, is accepted exactly within tolerance. */
  lemma {:induction false} SignedIsAccepted(digest: Digest, payload: Bytes, secret: string, ts: int, extraSecrets: seq<string>,
                         includeV0: bool, onlySchemes: Option<set<string>>, endpoint: string, tolerance: int, now: int)
    requires HexDigests(digest) && payload != []
    requires endpoint in [secret] + extraSecrets
    requires onlySchemes.None? || "v1" in onlySchemes.value
    ensures Accepts(digest, payload, Sign(digest, payload, secret, ts, extraSecrets, includeV0, onlySchemes), endpoint, tolerance, now)
      <==> -tolerance <= now - ts <= tolerance
  {
    PrintedAccepted(digest, payload, secret, ts, extraSecrets, includeV0, onlySchemes, payload, endpoint, tolerance, now);
    var secrets := [secret] + extraSecrets;
    var k :| 0 <= k < |secrets| && secrets[k] == endpoint;
    assert V1Schemes(digest, payload, secrets, ts)[k] == Scheme("v1", digest(endpoint, ts, payload));
  }

  /** A header without a v1 item, whatever correct v0 it carries, is never
      accepted: the scheme cannot be downgraded. */
  lemma {:induction false} NoDowngrade(digest: Digest, signed: Bytes, secret: string, ts: int, extraSecrets: seq<string>, includeV0: bool,
                    names: set<string>, payload: Bytes, endpoint: string, tolerance: int, now: int)
    requires HexDigests(digest) && "v1" !in names
    ensures !Accepts(digest, payload, Sign(digest, signed, secret, ts, extraSecrets, includeV0, Some(names)), endpoint, tolerance, now)
  {
    PrintedAccepted(digest, signed, secret, ts, extraSecrets, includeV0, Some(names), payload, endpoint, tolerance, now);
    SchemesAre(digest, signed, secret, ts, extraSecrets, includeV0, Some(names));
  }

  /** A header signed over one body does not pass another: with digests that
      tell the two bodies apart, what was changed after signing is refused. */
  lemma {:induction false} ChangedBodyRefused(digest: Digest, signed: Bytes, payload: Bytes, secret: string, ts: int, tolerance: int, now: int)
    requires HexDigests(digest)
    requires digest(secret, ts, signed) != digest(secret, ts, payload)
    ensures !Accepts(digest, payload, Sign(digest, signed, secret, ts, [], false, None), secret, tolerance, now)
  {
    PrintedAccepted(digest, signed, secret, ts, [], false, None, payload, secret, tolerance, now);
  }

  // ------------------------------------------------ a header, spelled out --

  /** key=value with neither empty, and a number after t=. */
  ghost predicate Spelled(item: string) {
    exists key, value :: SpelledAs(item, key, value)
  }

  predicate SpelledAs(item: string, key: string, value: string) {
    && '=' !in key && key != "" && value != "" && item == key + "=" + value
    && (key == "t" ==> ParseInt(value).Some?)
  }

  lemma {:induction false} WellFormedIsSpelled(item: string)
    ensures WellFormed(item) <==> Spelled(item)
  {
    if Partition(item).Some? {
      PartitionInverse(item);
      var (key, value) := Partition(item).value;
      assert WellFormed(item) ==> SpelledAs(item, key, value);
    }
    if Spelled(item) {
      var key, value :| SpelledAs(item, key, value);
      PartitionOf(key, value);
    }
  }

  /** The item is t=<value>. */
  lemma {:induction false} StampSpelled(item: string)
    ensures IsTimestamp(item) <==> "t=" <= item
  {
    if IsTimestamp(item) {
      PartitionInverse(item);
    }
    if "t=" <= item {
      PartitionOf("t", item[2..]);
      assert item == "t" + "=" + item[2..];
    }
  }

  /** What verify accepts, in the characters of the header and nothing of the parser's:
      every item between commas is key=value, exactly one begins with t=, its number is
      within tolerance, and v1=<digest> stands among them. */
  lemma {:induction false} AcceptsSpelled(digest: Digest, payload: Bytes, header: string, secret: string, tolerance: int, now: int)
    ensures Accepts(digest, payload, header, secret, tolerance, now) <==>
      && payload != [] && (forall item :: item in Split(header) ==> Spelled(item))
      && exists i, ts :: StampAt(Split(header), i, ts) && -tolerance <= now - ts <= tolerance
           && ("v1=" + digest(secret, ts, payload)) in Split(header)
  {
    var items := Split(header);
    forall item ensures WellFormed(item) <==> Spelled(item) {
      WellFormedIsSpelled(item);
    }
    forall i, ts ensures OnlyTimestamp(items, i, ts) <==> StampAt(items, i, ts) {
      StampsAgree(items, i, ts);
    }
    forall ts ensures V1Item(digest(secret, ts, payload)) == "v1=" + digest(secret, ts, payload) {
    }
    hide *;
    AcceptsIs(digest, payload, header, secret, tolerance, now);
  }

  lemma {:induction false} AcceptsIs(digest: Digest, payload: Bytes, header: string, secret: string, tolerance: int, now: int)
    ensures Accepts(digest, payload, header, secret, tolerance, now) <==>
      && payload != [] && (forall item :: item in Split(header) ==> WellFormed(item))
      && exists i, ts :: OnlyTimestamp(Split(header), i, ts) && -tolerance <= now - ts <= tolerance
           && V1Item(digest(secret, ts, payload)) in Split(header)
  {
    hide WellFormed, Split, V1Item;
    var items := Split(header);
    if i, ts :| OnlyTimestamp(items, i, ts) && -tolerance <= now - ts <= tolerance && V1Item(digest(secret, ts, payload)) in items {
      assert OnlyTimestamp(Split(header), i, ts);
    }
  }

  /** The i-th item is t=<ts>, and no other begins with t=. */
  predicate StampAt(items: seq<string>, i: int, ts: int) {
    && 0 <= i < |items| && "t=" <= items[i] && ParseInt(items[i][2..]) == Some(ts)
    && forall j :: 0 <= j < |items| && j != i ==> !("t=" <= items[j])
  }

  lemma {:induction false} StampsAgree(items: seq<string>, i: int, ts: int)
    ensures OnlyTimestamp(items, i, ts) <==> StampAt(items, i, ts)
  {
    hide Partition, ParseInt;
    forall j | 0 <= j < |items| ensures IsTimestamp(items[j]) <==> "t=" <= items[j] {
      StampSpelled(items[j]);
    }
    if 0 <= i < |items| && "t=" <= items[i] {
      PartitionOf("t", items[i][2..]);
      assert items[i] == "t" + "=" + items[i][2..];
    }
  }

  /** A number is an optional minus and digits, one at least, and no other text is. */
  lemma {:induction false} NumberSpelled(s: string)
    ensures ParseNat(s).Some? <==> s != "" && forall c :: c in s ==> '0' <= c <= '9'
    ensures ParseInt(s).Some? <==> ParseNat(if "-" <= s then s[1..] else s).Some?
  {
    if |s| == 1 {
      assert s[0] in s;
    } else if s != "" {
      var front, last := s[..|s| - 1], s[|s| - 1];
      NumberSpelled(front);
      assert s == front + [last] && last in s && forall c :: c in front ==> c in s;
    }
  }

  // ------------------------------------------------------- what sign prints --

  function Prefixed(prefix: string, items: seq<string>): (r: seq<string>)
    ensures |r| == |items| && forall i :: 0 <= i < |r| ==> r[i] == prefix + items[i]
  {
    seq(|items|, (i: int) requires 0 <= i < |items| => prefix + items[i])
  }

  function Digests(digest: Digest, payload: Bytes, secrets: seq<string>, ts: int): (r: seq<string>)
    ensures |r| == |secrets| && forall i :: 0 <= i < |r| ==> r[i] == digest(secrets[i], ts, payload)
  {
    seq(|secrets|, (i: int) requires 0 <= i < |secrets| => digest(secrets[i], ts, payload))
  }

  lemma {:induction false} AllAllowed(schemes: seq<Scheme>)
    ensures Allowed(schemes, None) == schemes
  {
    if schemes != [] {
      AllAllowed(schemes[..|schemes| - 1]);
      assert schemes == schemes[..|schemes| - 1] + [schemes[|schemes| - 1]];
    }
  }

  /** Between the commas of a printed header stand the timestamp, a v1 digest for every
      secret in turn, and at the end, where it is asked for, one v0 digest under the
      first secret. */
  lemma {:induction false} SignPrints(digest: Digest, payload: Bytes, secret: string, ts: int, extraSecrets: seq<string>, includeV0: bool)
    requires HexDigests(digest)
    ensures Split(Sign(digest, payload, secret, ts, extraSecrets, includeV0, None)) ==
      ["t=" + PrintInt(ts)]
      + Prefixed("v1=", Digests(digest, payload, [secret] + extraSecrets, ts))
      + if includeV0 then ["v0=" + digest(secret, ts, payload)] else []
  {
    var items := SignItems(digest, payload, secret, ts, extraSecrets, includeV0, None);
    ItemsAre(digest, payload, secret, ts, extraSecrets, includeV0);
    ItemsClean(digest, payload, secret, ts, extraSecrets, includeV0, None);
    hide *;
    SplitJoin(items);
    SignIs(digest, payload, secret, ts, extraSecrets, includeV0, None);
  }

  lemma {:induction false} SignIs(digest: Digest, payload: Bytes, secret: string, ts: int, extraSecrets: seq<string>,
                                  includeV0: bool, onlySchemes: Option<set<string>>)
    ensures Sign(digest, payload, secret, ts, extraSecrets, includeV0, onlySchemes)
      == Join(SignItems(digest, payload, secret, ts, extraSecrets, includeV0, onlySchemes))
  {
    hide Join, SignItems;
  }

  lemma {:induction false} ItemsAre(digest: Digest, payload: Bytes, secret: string, ts: int, extraSecrets: seq<string>, includeV0: bool)
    ensures SignItems(digest, payload, secret, ts, extraSecrets, includeV0, None) ==
      ["t=" + PrintInt(ts)]
      + Prefixed("v1=", Digests(digest, payload, [secret] + extraSecrets, ts))
      + if includeV0 then ["v0=" + digest(secret, ts, payload)] else []
    ensures SignItems(digest, payload, secret, ts, extraSecrets, includeV0, None) != []
  {
    hide PrintInt, Allowed;
    var v1 := V1Schemes(digest, payload, [secret] + extraSecrets, ts);
    var schemes := v1 + if includeV0 then [Scheme("v0", digest(secret, ts, payload))] else [];
    AllAllowed(schemes);
    assert Schemes(digest, payload, secret, ts, extraSecrets, includeV0, None) == schemes;
    var items := SignItems(digest, payload, secret, ts, extraSecrets, includeV0, None);
    assert "t" + "=" == "t=" && "v1" + "=" == "v1=" && "v0" + "=" == "v0=";
    forall i | 0 <= i < |schemes| ensures items[i + 1] == SchemeItem(schemes[i]) {
    }
    assert items[0] == "t=" + PrintInt(ts);
  }

  lemma {:induction false} ItemsClean(digest: Digest, payload: Bytes, secret: string, ts: int, extraSecrets: seq<string>,
                                      includeV0: bool, onlySchemes: Option<set<string>>)
    requires HexDigests(digest)
    ensures forall item :: item in SignItems(digest, payload, secret, ts, extraSecrets, includeV0, onlySchemes) ==> ',' !in item
  {
    SchemesAre(digest, payload, secret, ts, extraSecrets, includeV0, onlySchemes);
    IntRoundTrip(ts);
    hide Schemes, PrintInt;
  }

  lemma {:induction false} OneAllowed(earlier: seq<Scheme>, last: Scheme, names: set<string>)
    ensures Allowed(earlier + [last], Some(names)) ==
      Allowed(earlier, Some(names)) + if last.name in names then [last] else []
  {
    assert (earlier + [last])[..|earlier|] == earlier;
  }

  /** Restricted to v0 the header carries that alone, under the first secret. */
  lemma {:induction false} SignPrintsV0(digest: Digest, payload: Bytes, secret: string, ts: int, includeV0: bool)
    requires HexDigests(digest)
    ensures Split(Sign(digest, payload, secret, ts, [], includeV0, Some({"v0"}))) ==
      ["t=" + PrintInt(ts), "v0=" + digest(secret, ts, payload)]
  {
    var v1, v0 := Scheme("v1", digest(secret, ts, payload)), Scheme("v0", digest(secret, ts, payload));
    assert V1Schemes(digest, payload, [secret] + [], ts) == [v1];
    OneAllowed([], v1, {"v0"});
    OneAllowed([v1], v0, {"v0"});
    assert [] + [v1] == [v1] && [v1] + [v0] == [v1, v0] && [] + [v0] == [v0];
    assert Schemes(digest, payload, secret, ts, [], includeV0, Some({"v0"})) == [v0];
    assert "t" + "=" == "t=" && "v0" + "=" == "v0=";
    ItemsClean(digest, payload, secret, ts, [], includeV0, Some({"v0"}));
    SplitJoin(SignItems(digest, payload, secret, ts, [], includeV0, Some({"v0"})));
  }
}
