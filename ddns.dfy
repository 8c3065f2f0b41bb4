/**
 * The engine object of lib/ddns.js. Its own state is the cached domain id,
 * the `started` flag and the rounds it has queued; a round reads that state
 * and reports what it emitted, saved and scheduled.
 */
module Ddns {
  import opened Wrappers
  import opened JsValue
  import opened Config
  import opened Envelope
  import opened Records
  import opened DdnsSpec
  import RoundProperties

  class DDNS {
    const cfg: ConfigSchema
    const token: Value
    const subdomains: Value
    const ipGetter: Value
    /** The provider's id for `cfg.domain`; `None` until `Initialize` finds it. */
    var domainId: Option<string>
    var started: bool
    /** Rounds queued by `Start` (its `process.nextTick`), oldest first. */
    var pending: seq<Delay>

    /** What the constructor established: a checked configuration, copied. */
    ghost predicate Valid() {
      Check(cfg) && token == cfg.token && subdomains == cfg.subdomains && ipGetter == cfg.ipGetter
    }

    /** The constructor after its guard (see `Create` for the guard itself). */
    constructor (cfg: ConfigSchema)
      requires Check(cfg)
      ensures Valid() && this.cfg == cfg
      ensures domainId == None && !started && pending == []
    {
      this.cfg := cfg;
      token := cfg.token;
      domainId := None;
      subdomains := cfg.subdomains;
      ipGetter := cfg.ipGetter;
      started := false;
      pending := [];
    }

    /**
     * `new DDNS(arg)`: throws "Broken config schema." unless the argument is
     * a ConfigSchema whose `check()` holds.
     */
    static method Create(arg: ConfigArg) returns (r: Result<DDNS, Error>)
      ensures r.Err? <==> Admit(arg).Err?
      ensures r.Err? ==> r.error == BrokenConfig
      ensures r.Ok? ==> fresh(r.value) && r.value.Valid() && r.value.cfg == arg.cfg
                        && r.value.domainId == None && !r.value.started && r.value.pending == []
    {
      match Admit(arg)
      case Err(e) => r := Err(e);
      case Ok(cfg) =>
        var d := new DDNS(cfg);
        r := Ok(d);
    }

    /**
     * `initialize`: given the `Domain.List` reply, store the id of the first
     * domain named like the configured one. Every error leaves the id as it was.
     */
    method Initialize(resp: Response) returns (err: Option<Error>)
      modifies this`domainId
      ensures var lookup := DomainLookup(resp, cfg.domain);
              (err == None <==> lookup.Ok?)
              && (lookup.Err? ==> err == Some(lookup.error) && domainId == old(domainId))
              && (lookup.Ok? ==> domainId == Some(lookup.value))
    {
      match CheckEnvelope(resp)
      case Err(e) =>
        return Some(e);
      case Ok(body) =>
        var domains := body.domains;
        if |domains| == 0 {
          return Some(NoTargetDomain(cfg.domain));
        }
        var i := 0;
        while i < |domains|
          invariant 0 <= i <= |domains|
          invariant forall j :: 0 <= j < i ==> Str(domains[j].name) != cfg.domain
          invariant domainId == old(domainId)
        {
          if Str(domains[i].name) == cfg.domain {
            assert FirstDomain(domains, cfg.domain) == i by { FirstIsUnique(domains, cfg.domain, i); }
            domainId := Some(domains[i].id);
            return None;
          }
          i := i + 1;
        }
        assert FirstDomain(domains, cfg.domain) == |domains| by {
          FirstIsUnique(domains, cfg.domain, |domains|);
        }
        return Some(NoFitDomain);
    }

    /**
     * `fetchSpecifiedRecord`: given the `Record.List` reply, build a Record
     * for every A record named in `subs`, in the reply's order, each carrying
     * the domain id and token of this call.
     */
    method FetchSpecifiedRecord(subs: seq<Value>, resp: Response) returns (r: Result<seq<Record>, Error>)
      ensures r == Fetched(resp, subs, domainId, token)
      ensures CheckEnvelope(resp).Err? ==> r == Err(CheckEnvelope(resp).error)
      ensures r.Ok? ==> forall rec <- r.value ::
                          Wanted(ToRaw(rec), subs) && rec.domainId == domainId && rec.token == token
    {
      var captured, id := token, domainId;
      match CheckEnvelope(resp)
      case Err(e) =>
        r := Err(e);
      case Ok(body) =>
        var raw := body.records;
        var records: seq<Record> := [];
        for i := 0 to |raw|
          invariant records == Selected(raw[..i], subs, id, captured)
        {
          assert raw[..i + 1][..i] == raw[..i];
          if raw[i].recordType == "A" && IndexOf(subs, Str(raw[i].name)) > -1 {
            records := records + [FromRaw(raw[i], id, captured)];
          }
        }
        assert raw[..|raw|] == raw;
        r := Ok(records);
    }

    /** `start`: the first call queues a round on the next tick; later calls do nothing. */
    method Start()
      modifies this`started, this`pending
      ensures started
      ensures pending == if old(started) then old(pending) else old(pending) + [NextTick]
    {
      if started {
        return;
      }
      started := true;
      pending := pending + [NextTick];
    }

    /**
     * `_interval`, one round. `detect` is what the IP getter called back
     * with, `fetchResp` the `Record.List` reply and `saveResp(k)` the reply
     * to saving the k-th fetched record. Returns the events in emission
     * order, the fetched records as the round left them, the update requests
     * sent, and when the next round was scheduled.
     */
    method Interval(detect: Result<string, Error>, fetchResp: Response, saveResp: nat -> Response)
      returns (trace: seq<Event>, records: seq<Record>, sent: seq<Payload>, next: Option<Delay>)
      requires Valid()
      ensures RoundResult(trace, records, sent, next)
              == RoundSpec(cfg.interval, ipGetter, subdomains.items, domainId, token, detect, fetchResp, saveResp)
      ensures trace[..2] == [Round, Detecting]
      ensures next.Some? <==> ipGetter.Fn?
      ensures next.Some? ==> trace[|trace| - 1] == RoundEnd && next == Some(After(cfg.interval))
    {
      trace := [Round];
      trace := trace + [Detecting];
      records, sent := [], [];
      if !ipGetter.Fn? {
        // Calling a getter that is not a function throws out of the round.
        next := None;
        return;
      }
      var steps, err;
      steps, err, records, sent := RunWaterfall(detect, fetchResp, saveResp);
      trace := trace + steps;
      // The waterfall's final callback.
      if err.Some? {
        trace := trace + [Failed(err.value)];
      }
      trace := trace + [RoundEnd];
      next := Some(After(cfg.interval));
      RoundProperties.CalledRoundAround(cfg.interval, subdomains.items, domainId, token,
                                        detect, fetchResp, saveResp, steps, err, records, sent);
    }

    /**
     * The three steps of `_interval`'s waterfall: emit `detected` after a
     * successful detection, fetch, then warn on an empty list or run a task
     * per record. A failing step skips the rest and hands on its error.
     */
    method RunWaterfall(detect: Result<string, Error>, fetchResp: Response, saveResp: nat -> Response)
      returns (events: seq<Event>, err: Option<Error>, records: seq<Record>, sent: seq<Payload>)
      requires Valid()
      ensures Steps(events, err, records, sent)
              == Waterfall(subdomains.items, domainId, token, detect, fetchResp, saveResp)
    {
      events, err, records, sent := [], None, [], [];
      match detect {
        case Err(e) =>
          err := Some(e);
        case Ok(ip) =>
          events := [Detected(ip)];
          var fetched := FetchSpecifiedRecord(subdomains.items, fetchResp);
          assert fetched == Fetched(fetchResp, subdomains.items, domainId, token);
          match fetched {
            case Err(e) =>
              err := Some(e);
            case Ok(rs) =>
              if |rs| == 0 {
                events := events + [Warn(NoAvailableSubdomains)];
              } else {
                var taskEvents;
                taskEvents, records, sent := RunTasks(rs, ip, saveResp);
                events := events + taskEvents;
                assert Batch(taskEvents, records, sent) == Reconcile(rs, ip, saveResp);
              }
          }
      }
    }
  }

  /**
   * The processor of `_interval` for one record: `equal` when the record
   * already holds the detected IP; otherwise `changing`, set the IP, save,
   * `saveError` if the save failed, and `changed` in any case.
   */
  method Process(rec: Record, ip: string, resp: Response)
    returns (events: seq<Event>, record: Record, sent: seq<Payload>)
    ensures Task(events, record, sent) == ProcessRecord(rec, ip, resp)
  {
    record, sent := rec, [];
    if record.ip == ip {
      events := [Equal(record, ip)];
      return;
    }
    events := [Changing(record, ip)];
    record := record.(ip := ip);
    var call := Save(record, resp);
    sent := [call.request];
    if call.err.Some? {
      events := events + [SaveError(call.err.value, record)];
    }
    events := events + [Changed(record)];
  }

  /**
   * The executor: the processor applied to each fetched record, one task
   * after the other; `done` counts finished tasks and the batch ends once
   * it reaches the number of records.
   */
  method RunTasks(rs: seq<Record>, ip: string, saveResp: nat -> Response)
    returns (events: seq<Event>, records: seq<Record>, sent: seq<Payload>)
    ensures Batch(events, records, sent) == Reconcile(rs, ip, saveResp)
  {
    events, records, sent := [], [], [];
    var done := 0;
    while done < |rs|
      invariant 0 <= done <= |rs|
      invariant Batch(events, records, sent) == Reconcile(rs[..done], ip, saveResp)
    {
      assert rs[..done + 1][..done] == rs[..done];
      var taskEvents, record, taskSent := Process(rs[done], ip, saveResp(done));
      events, records, sent := events + taskEvents, records + [record], sent + taskSent;
      done := done + 1;
    }
    assert rs[..done] == rs;
  }
}
