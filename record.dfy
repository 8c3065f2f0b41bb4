/**
 * One DNS A record as fetched in a round (lib/record.js): the provider's
 * raw entry mapped to fields, and the `Record.Modify` call that pushes all
 * of those fields back.
 */
module Records {
  import opened Wrappers
  import opened JsValue
  import opened Envelope

  /** The fields of a Record object; `ip` holds the provider's `value`. */
  datatype Record = Record(
    token: Value,
    domainId: Option<string>,
    recordId: string,
    name: string,
    recordType: string,
    ttl: string,
    line: string,
    mx: string,
    status: string,
    ip: string)

  /** The form fields of a `Record.Modify` request. */
  datatype Payload = Payload(
    loginToken: Value,
    format: string,
    lang: string,
    errorOnEmpty: string,
    domainId: Option<string>,
    recordId: string,
    subDomain: string,
    recordType: string,
    recordLine: string,
    value: string,
    mx: string,
    ttl: string,
    status: string)

  /** A `save` call: what was sent, and the error its callback received. */
  datatype SaveCall = SaveCall(request: Payload, err: Option<Error>)

  /** The provider's view of a record: the raw entry it would list. */
  function ToRaw(r: Record): (raw: RawRecord) {
    RawRecord(r.recordId, r.name, r.recordType, r.ttl, r.ip, r.line, r.mx, r.status)
  }

  /** The record fields of an update request, read as a provider entry. */
  function PayloadAsRaw(p: Payload): (raw: RawRecord) {
    RawRecord(p.recordId, p.subDomain, p.recordType, p.ttl, p.value, p.recordLine, p.mx, p.status)
  }

  /** The constructor: every raw field is kept, `id` as `recordId`, `value` as `ip`. */
  function FromRaw(raw: RawRecord, domainId: Option<string>, token: Value): (r: Record)
    ensures ToRaw(r) == raw
    ensures r.domainId == domainId && r.token == token
  {
    Record(token, domainId, raw.id, raw.name, raw.recordType, raw.ttl, raw.line, raw.mx,
           raw.status, raw.value)
  }

  /** A record is determined by its provider view, domain id and token. */
  lemma FromRawToRaw(r: Record)
    ensures FromRaw(ToRaw(r), r.domainId, r.token) == r
  {
  }

  /**
   * The `Record.Modify` request: the full record, one field per form field,
   * always in English and JSON whatever language the configuration chose.
   */
  function ModifyPayload(r: Record): (p: Payload)
    ensures PayloadAsRaw(p) == ToRaw(r)
    ensures p.value == r.ip && p.recordId == r.recordId
    ensures p.domainId == r.domainId && p.loginToken == r.token
    ensures p.lang == "en" && p.format == "json" && p.errorOnEmpty == "no"
  {
    Payload(r.token, "json", "en", "no", r.domainId, r.recordId, r.name, r.recordType,
            r.line, r.ip, r.mx, r.ttl, r.status)
  }

  /**
   * `save()`: sends the record's payload and reports the envelope check's
   * verdict on the reply. The record itself is a value and is not changed.
   */
  function Save(r: Record, resp: Response): (call: SaveCall)
    ensures call.request == ModifyPayload(r)
    ensures call.err.None? <==> Accepted(resp)
    ensures call.err.Some? ==> Err(call.err.value) == CheckEnvelope(resp)
  {
    match CheckEnvelope(resp)
    case Ok(_) => SaveCall(ModifyPayload(r), None)
    case Err(e) => SaveCall(ModifyPayload(r), Some(e))
  }

  /** Building a record and saving it untouched sends back what was fetched. */
  lemma SaveUntouchedRoundTrip(raw: RawRecord, domainId: Option<string>, token: Value)
    ensures PayloadAsRaw(ModifyPayload(FromRaw(raw, domainId, token))) == raw
  {
  }

  /** Retargeting a record changes exactly the `value` the update sends. */
  lemma SaveRetargeted(raw: RawRecord, domainId: Option<string>, token: Value, ip: string)
    ensures PayloadAsRaw(ModifyPayload(FromRaw(raw, domainId, token).(ip := ip)))
            == raw.(value := ip)
  {
  }
}
