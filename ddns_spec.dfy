/**
 * The pure part of the engine in lib/ddns.js: the construction guard, the
 * domain search of `initialize`, the record filter of
 * `fetchSpecifiedRecord`, the per-record task of a round, and one whole
 * round as a function of what the outside world answered. The class in
 * module Ddns is proved against these definitions.
 */
module DdnsSpec {
  import opened Wrappers
  import opened JsValue
  import opened Config
  import opened Envelope
  import opened Records

  /** The notifications a round emits, in emission order. */
  datatype Event =
    | Round
    | Detecting
    | Detected(ip: string)
    | Warn(warning: Error)
    | Equal(record: Record, ip: string)
    | Changing(record: Record, ip: string)
    | SaveError(err: Error, record: Record)
    | Changed(record: Record)
    | Failed(err: Error)
    | RoundEnd

  /** When the next round was scheduled: `process.nextTick` or `setTimeout`. */
  datatype Delay = NextTick | After(ms: int)

  /** The argument of the DDNS constructor: a ConfigSchema, or anything else. */
  datatype ConfigArg = Schema(cfg: ConfigSchema) | NotSchema(other: Value)

  /** The constructor's guard: only a ConfigSchema that passes `check()`. */
  function Admit(arg: ConfigArg): (r: Result<ConfigSchema, Error>)
    ensures r.Ok? <==> arg.Schema? && Check(arg.cfg)
    ensures r.Ok? ==> r.value == arg.cfg
    ensures r.Err? ==> r.error == BrokenConfig
  {
    if arg.Schema? && Check(arg.cfg) then Ok(arg.cfg) else Err(BrokenConfig)
  }

  // ----- initialize: the domain search -------------------------------------

  /** The index of the first domain named `name`, or `|domains|` if none is. */
  function FirstDomain(domains: seq<RawDomain>, name: Value): (k: nat)
    ensures k <= |domains|
    ensures forall j :: 0 <= j < k ==> Str(domains[j].name) != name
    ensures k < |domains| ==> Str(domains[k].name) == name
    decreases |domains|
  {
    if domains == [] then 0
    else if Str(domains[0].name) == name then 0
    else 1 + FirstDomain(domains[1..], name)
  }

  /** Two indexes that both pass the first-match test are the same. */
  lemma FirstIsUnique(domains: seq<RawDomain>, name: Value, i: nat)
    requires i <= |domains|
    requires forall j :: 0 <= j < i ==> Str(domains[j].name) != name
    requires i < |domains| ==> Str(domains[i].name) == name
    ensures FirstDomain(domains, name) == i
  {
  }

  /**
   * What `initialize` makes of a `Domain.List` reply: the id to store, or
   * the error for the callback.
   */
  function DomainLookup(resp: Response, domain: Value): (r: Result<string, Error>)
    ensures CheckEnvelope(resp).Err? ==> r == Err(CheckEnvelope(resp).error)
    ensures CheckEnvelope(resp).Ok? && CheckEnvelope(resp).value.domains == []
            ==> r == Err(NoTargetDomain(domain))
    ensures r.Ok? <==> CheckEnvelope(resp).Ok?
                       && exists d <- CheckEnvelope(resp).value.domains :: Str(d.name) == domain
    ensures r.Ok? ==>
              var ds := CheckEnvelope(resp).value.domains;
              exists i :: 0 <= i < |ds| && ds[i].id == r.value && Str(ds[i].name) == domain
                          && forall j :: 0 <= j < i ==> Str(ds[j].name) != domain
    ensures (CheckEnvelope(resp).Ok? && CheckEnvelope(resp).value.domains != []
             && forall d <- CheckEnvelope(resp).value.domains :: Str(d.name) != domain)
            ==> r == Err(NoFitDomain)
  {
    match CheckEnvelope(resp)
    case Err(e) => Err(e)
    case Ok(body) =>
      if body.domains == [] then Err(NoTargetDomain(domain))
      else
        var k := FirstDomain(body.domains, domain);
        if k < |body.domains| then
          assert body.domains[k] in body.domains;
          Ok(body.domains[k].id)
        else Err(NoFitDomain)
  }

  // ----- fetchSpecifiedRecord: the record filter ---------------------------

  /**
   * `Array.prototype.indexOf`: the first index holding `v`, or -1. Only
   * strings are searched, and on `Str` values `==` is JavaScript's `===`.
   */
  function IndexOf(s: seq<Value>, v: Value): (i: int)
    ensures -1 <= i < |s|
    ensures i >= 0 ==> s[i] == v && forall j :: 0 <= j < i ==> s[j] != v
    ensures i == -1 <==> v !in s
    decreases |s|
  {
    if s == [] then -1
    else if s[0] == v then 0
    else var k := IndexOf(s[1..], v); if k == -1 then -1 else k + 1
  }

  /** The filter: an A record whose name is one of the subdomains (`indexOf > -1`). */
  predicate Wanted(raw: RawRecord, subdomains: seq<Value>)
    ensures Wanted(raw, subdomains) <==> raw.recordType == "A" && Str(raw.name) in subdomains
  {
    raw.recordType == "A" && IndexOf(subdomains, Str(raw.name)) > -1
  }

  /** The records kept from `raws`, in their order, each built with the given id and token. */
  function Selected(raws: seq<RawRecord>, subdomains: seq<Value>, domainId: Option<string>,
                    token: Value): (rs: seq<Record>)
    ensures |rs| <= |raws|
    ensures forall r <- rs :: Wanted(ToRaw(r), subdomains)
    ensures forall r <- rs :: r.domainId == domainId && r.token == token
    ensures forall r <- rs :: ToRaw(r) in raws
    decreases |raws|
  {
    if raws == [] then []
    else
      var prev := Selected(raws[..|raws| - 1], subdomains, domainId, token);
      var last := raws[|raws| - 1];
      if Wanted(last, subdomains) then prev + [FromRaw(last, domainId, token)] else prev
  }

  /** What `fetchSpecifiedRecord` hands its callback for a `Record.List` reply. */
  function Fetched(resp: Response, subdomains: seq<Value>, domainId: Option<string>,
                   token: Value): (r: Result<seq<Record>, Error>)
    ensures r.Ok? <==> Accepted(resp)
    ensures r.Err? ==> r == Err(CheckEnvelope(resp).error)
  {
    match CheckEnvelope(resp)
    case Err(e) => Err(e)
    case Ok(body) => Ok(Selected(body.records, subdomains, domainId, token))
  }

  // ----- one round ---------------------------------------------------------

  /** What one task of the executor did: its events, its record afterwards, its saves. */
  datatype Task = Task(events: seq<Event>, record: Record, sent: seq<Payload>)

  /** A task's terminal notification: the record is settled. */
  predicate Settles(e: Event) { e.Equal? || e.Changed? }

  /** A notification that only a per-record task emits. */
  predicate TaskEvent(e: Event) { e.Equal? || e.Changing? || e.SaveError? || e.Changed? }

  /**
   * The processor of one record. An equal IP gives `equal` and nothing else;
   * a different one gives `changing`, the IP is set, the record is saved,
   * `saveError` follows only if the save failed, and `changed` always.
   */
  function ProcessRecord(rec: Record, ip: string, resp: Response): (t: Task)
    ensures t.record == rec.(ip := ip)
    ensures |t.sent| == (if rec.ip == ip then 0 else 1)
    ensures forall p <- t.sent :: p == ModifyPayload(rec.(ip := ip)) && p.value == ip
    ensures t.events != [] && forall e <- t.events :: TaskEvent(e)
    ensures t.events[0] == (if rec.ip == ip then Equal(rec, ip) else Changing(rec, ip))
    ensures t.events[|t.events| - 1] == (if rec.ip == ip then Equal(rec, ip) else Changed(rec.(ip := ip)))
    ensures forall i :: 0 <= i < |t.events| - 1 ==> !Settles(t.events[i])
    ensures (exists e <- t.events :: e.SaveError?) <==> rec.ip != ip && !Accepted(resp)
    ensures forall e <- t.events :: e.SaveError? ==> e == SaveError(CheckEnvelope(resp).error, rec.(ip := ip))
    ensures |t.events| == if rec.ip == ip then 1 else if Accepted(resp) then 2 else 3
  {
    if rec.ip == ip then Task([Equal(rec, ip)], rec, [])
    else
      var changed := rec.(ip := ip);
      var call := Save(changed, resp);
      var failed := if call.err.Some? then [SaveError(call.err.value, changed)] else [];
      var events := [Changing(rec, ip)] + failed + [Changed(changed)];
      assert call.err.Some? ==> events[1] == SaveError(call.err.value, changed);
      Task(events, changed, [call.request])
  }

  /** The tasks of a round, run one after the other, record by record. */
  datatype Batch = Batch(events: seq<Event>, records: seq<Record>, sent: seq<Payload>)

  /**
   * All tasks of a round; `saveResp(k)` is the provider's reply to the save
   * of the record at position `k`, if that record is saved.
   */
  function Reconcile(records: seq<Record>, ip: string, saveResp: nat -> Response): (b: Batch)
    ensures forall e <- b.events :: TaskEvent(e)
    decreases |records|
  {
    if records == [] then Batch([], [], [])
    else
      var n := |records| - 1;
      var prev := Reconcile(records[..n], ip, saveResp);
      var t := ProcessRecord(records[n], ip, saveResp(n));
      Batch(prev.events + t.events, prev.records + [t.record], prev.sent + t.sent)
  }

  /** The number of records whose IP differs from `ip`: the ones a round saves. */
  function Differing(records: seq<Record>, ip: string): (n: nat)
    ensures n <= |records|
    decreases |records|
  {
    if records == [] then 0
    else Differing(records[..|records| - 1], ip) + (if records[|records| - 1].ip == ip then 0 else 1)
  }

  /**
   * The steps of the round's waterfall: detect, fetch, reconcile. `err` is
   * what reaches the waterfall's final callback.
   */
  datatype Steps = Steps(events: seq<Event>, err: Option<Error>, records: seq<Record>,
                         sent: seq<Payload>)

  /** The waterfall of `_interval`: each step runs only if the one before succeeded. */
  function Waterfall(subdomains: seq<Value>, domainId: Option<string>, token: Value,
                     detect: Result<string, Error>, fetchResp: Response,
                     saveResp: nat -> Response): (w: Steps)
    ensures forall i :: 0 < i < |w.events| ==> w.events[i].Warn? || TaskEvent(w.events[i])
    ensures w.err.Some? <==> detect.Err? || Fetched(fetchResp, subdomains, domainId, token).Err?
    ensures detect.Err? ==> w.events == [] && w.records == [] && w.sent == []
    ensures detect.Ok? ==> w.events != [] && w.events[0] == Detected(detect.value)
    ensures detect.Ok? && Fetched(fetchResp, subdomains, domainId, token).Err?
            ==> w.events == [Detected(detect.value)] && w.records == [] && w.sent == []
  {
    match detect
    case Err(e) => Steps([], Some(e), [], [])
    case Ok(ip) =>
      match Fetched(fetchResp, subdomains, domainId, token)
      case Err(e) => Steps([Detected(ip)], Some(e), [], [])
      case Ok(records) =>
        if records == [] then Steps([Detected(ip), Warn(NoAvailableSubdomains)], None, [], [])
        else
          var b := Reconcile(records, ip, saveResp);
          assert forall i :: 0 < i < |b.events| + 1 ==> ([Detected(ip)] + b.events)[i] == b.events[i - 1];
          Steps([Detected(ip)] + b.events, None, b.records, b.sent)
  }

  /**
   * What a round produced: its events, its records after the round, its
   * saves, and the next round's delay; `next` is `None` when the round
   * threw before it could schedule one.
   */
  datatype RoundResult = RoundResult(trace: seq<Event>, records: seq<Record>,
                                     sent: seq<Payload>, next: Option<Delay>)

  /**
   * A round in which the IP getter could be called: `round`, `detecting`,
   * the waterfall; then, in its final callback, `error` if a step failed,
   * `roundEnd` always, and the next round scheduled after the interval.
   */
  function CalledRound(interval: int, subdomains: seq<Value>, domainId: Option<string>, token: Value,
                       detect: Result<string, Error>, fetchResp: Response,
                       saveResp: nat -> Response): (r: RoundResult)
    ensures r.next == Some(After(interval))
    ensures |r.trace| >= 4 && r.trace[..2] == [Round, Detecting] && r.trace[|r.trace| - 1] == RoundEnd
  {
    var w := Waterfall(subdomains, domainId, token, detect, fetchResp, saveResp);
    var failure := if w.err.Some? then [Failed(w.err.value)] else [];
    RoundResult([Round, Detecting] + w.events + failure + [RoundEnd], w.records, w.sent,
                Some(After(interval)))
  }

  /**
   * One round (`_interval`). The getter is called right after `detecting`;
   * a getter that is not a function throws there, out of the round: nothing
   * else is emitted and no next round is scheduled.
   */
  function RoundSpec(interval: int, getter: Value, subdomains: seq<Value>, domainId: Option<string>,
                     token: Value, detect: Result<string, Error>, fetchResp: Response,
                     saveResp: nat -> Response): (r: RoundResult)
    ensures |r.trace| >= 2 && r.trace[..2] == [Round, Detecting]
    ensures r.next.Some? <==> getter.Fn?
    ensures !getter.Fn? ==> r == RoundResult([Round, Detecting], [], [], None)
    ensures getter.Fn? ==> r == CalledRound(interval, subdomains, domainId, token, detect, fetchResp, saveResp)
  {
    if getter.Fn? then CalledRound(interval, subdomains, domainId, token, detect, fetchResp, saveResp)
    else RoundResult([Round, Detecting], [], [], None)
  }
}
