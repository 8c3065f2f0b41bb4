/**
 * The DNSPod reply envelope shared by `Domain.List`, `Record.List` and
 * `Record.Modify`, and the one check that all three calls make on it
 * (lib/ddns.js and lib/record.js repeat it verbatim). A reply is the HTTP
 * status and, when the body parsed as JSON, the parsed envelope.
 */
module Envelope {
  import opened Wrappers
  import opened JsValue

  /** `status: { code, message }` of a reply; the code is compared with `===`. */
  datatype Status = Status(code: Value, message: string)

  /** One entry of `domains` in a `Domain.List` reply. */
  datatype RawDomain = RawDomain(id: string, name: string)

  /** One entry of `records` in a `Record.List` reply. */
  datatype RawRecord = RawRecord(
    id: string,
    name: string,
    recordType: string,
    ttl: string,
    value: string,
    line: string,
    mx: string,
    status: string)

  /** A parsed body; `status` is `None` when it is missing or falsy. */
  datatype Body = Body(status: Option<Status>, domains: seq<RawDomain>, records: seq<RawRecord>)

  /** A reply: `body` is `None` when `JSON.parse` threw on the content. */
  datatype Response = Response(httpStatus: int, body: Option<Body>)

  /** The errors the core hands to its callbacks and events. */
  datatype Error =
    | WrongStatus(status: int)        // "Server returns a wrong status …"
    | Unparseable                     // the exception thrown by JSON.parse
    | BrokenContent                   // "Broken server content: …"
    | Remote(message: string)         // status.message of a failed call
    | NoTargetDomain(domain: Value)   // "No target domain: …"
    | NoFitDomain                     // "No fit domain."
    | NoAvailableSubdomains           // "No available subdomains."
    | BrokenConfig                    // "Broken config schema."
    | Detect(reason: string)          // whatever the IP getter failed with

  /** The canonical success code of the provider. */
  const SuccessCode: Value := Str("1")

  /**
   * The envelope check: HTTP 200, then a parsed body, then a `status`,
   * then `status.code === "1"`; the first test that fails decides the error.
   */
  function CheckEnvelope(resp: Response): (r: Result<Body, Error>)
    ensures resp.httpStatus != 200 ==> r == Err(WrongStatus(resp.httpStatus))
    ensures resp.httpStatus == 200 && resp.body.None? ==> r == Err(Unparseable)
    ensures (resp.httpStatus == 200 && resp.body.Some? && resp.body.value.status.None?)
            ==> r == Err(BrokenContent)
    ensures (resp.httpStatus == 200 && resp.body.Some? && resp.body.value.status.Some?
             && resp.body.value.status.value.code != SuccessCode)
            ==> r == Err(Remote(resp.body.value.status.value.message))
    ensures r.Ok? <==> Accepted(resp)
    ensures r.Ok? ==> r.value == resp.body.value
  {
    if resp.httpStatus != 200 then Err(WrongStatus(resp.httpStatus))
    else match resp.body
      case None => Err(Unparseable)
      case Some(body) =>
        match body.status
        case None => Err(BrokenContent)
        case Some(status) =>
          if status.code != SuccessCode then Err(Remote(status.message))
          else Ok(body)
  }

  /** A reply that the envelope check lets through. */
  predicate Accepted(resp: Response) {
    resp.httpStatus == 200 && resp.body.Some? && resp.body.value.status.Some?
    && resp.body.value.status.value.code == SuccessCode
  }

  /** A numeric code 1 is not the string "1": strict equality rejects it. */
  lemma NumericCodeRejected(msg: string, domains: seq<RawDomain>, records: seq<RawRecord>)
    ensures CheckEnvelope(Response(200, Some(Body(Some(Status(Num(1), msg)), domains, records))))
            == Err(Remote(msg))
  {
  }
}
