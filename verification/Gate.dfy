/** What the webhook checks before it touches the database (ingest/app.py): size,
    signature over the raw bytes, JSON, envelope, in that order. */
module Gate {
  import opened Wrappers
  import opened Mapping
  import opened Signature

  const MAX_BODY_BYTES := 524288  // 512 * 1024
  const INVALID_SIGNATURE := "invalid signature"

  // json.loads and the envelope check, as a function of the bytes.
  datatype Parsed = NotJson | NotAnEvent | AnEvent(event: Event)

  datatype Gated = BadRequest(error: string) | Passed(event: Event)

  ghost function GateOf(digest: Digest, parse: Bytes -> Parsed, raw: Bytes, header: string, secret: string, now: int): Gated {
    if |raw| > MAX_BODY_BYTES then BadRequest("body too large")
    else if !Accepts(digest, raw, header, secret, DEFAULT_TOLERANCE_SECONDS, now) then BadRequest(INVALID_SIGNATURE)
    else
      match parse(raw)
      case NotJson => BadRequest("invalid JSON body")
      case NotAnEvent => BadRequest("not an event")
      case AnEvent(event) => Passed(event)
  }

  method Admit(digest: Digest, parse: Bytes -> Parsed, raw: Bytes, header: string, secret: string, now: int)
    returns (r: Gated)
    ensures r == GateOf(digest, parse, raw, header, secret, now)
    ensures r == BadRequest("body too large") <==> |raw| > 512 * 1024
    ensures r == BadRequest("invalid signature") <==>
      |raw| <= 512 * 1024 && !Accepts(digest, raw, header, secret, 300, now)
    ensures r == BadRequest("invalid JSON body") <==>
      |raw| <= 512 * 1024 && Accepts(digest, raw, header, secret, 300, now) && parse(raw).NotJson?
    ensures r == BadRequest("not an event") <==>
      |raw| <= 512 * 1024 && Accepts(digest, raw, header, secret, 300, now) && parse(raw).NotAnEvent?
    ensures r.Passed? <==>
      |raw| <= 512 * 1024 && Accepts(digest, raw, header, secret, 300, now) && parse(raw).AnEvent?
    ensures r.Passed? ==> parse(raw) == AnEvent(r.event)
  {
    if |raw| > MAX_BODY_BYTES {
      return BadRequest("body too large");
    }
    var verdict := Verify(digest, raw, header, secret, DEFAULT_TOLERANCE_SECONDS, now);
    if verdict != Accepted {
      return BadRequest(INVALID_SIGNATURE);
    }
    match parse(raw) {
      case NotJson => return BadRequest("invalid JSON body");
      case NotAnEvent => return BadRequest("not an event");
      case AnEvent(event) => return Passed(event);
    }
  }

  /** Nothing the endpoint's secret did not sign, recently and as v1, gets past the
      gate, whatever it parses to. */
  lemma {:induction false} PassedWasSigned(
      digest: Digest, parse: Bytes -> Parsed, raw: Bytes, header: string, secret: string, now: int)
    requires GateOf(digest, parse, raw, header, secret, now).Passed?
    ensures exists ts :: SignedAt(digest, raw, header, secret, now, ts)
  {
    var i, ts :| OnlyTimestamp(Split(header), i, ts)
      && -DEFAULT_TOLERANCE_SECONDS <= now - ts <= DEFAULT_TOLERANCE_SECONDS
      && V1Item(digest(secret, ts, raw)) in Split(header);
    assert SignedAt(digest, raw, header, secret, now, ts);
  }

  ghost predicate SignedAt(digest: Digest, raw: Bytes, header: string, secret: string, now: int, ts: int) {
    && -DEFAULT_TOLERANCE_SECONDS <= now - ts <= DEFAULT_TOLERANCE_SECONDS
    && V1Item(digest(secret, ts, raw)) in Split(header)
  }
}
