/**
 * Properties of the engine's specification: the record filter keeps
 * exactly the wanted records in order, and every round has the event
 * shape, the saves and the reschedule the engine promises.
 */
module RoundProperties {
  import opened Wrappers
  import opened JsValue
  import opened Envelope
  import opened Records
  import opened DdnsSpec
  import Config

  // ----- the record filter -------------------------------------------------

  /** Every wanted raw record turns up in the fetched list. */
  lemma {:induction false} SelectedComplete(raws: seq<RawRecord>, subdomains: seq<Value>,
                                            domainId: Option<string>, token: Value)
    ensures forall i :: 0 <= i < |raws| && Wanted(raws[i], subdomains)
                        ==> FromRaw(raws[i], domainId, token) in Selected(raws, subdomains, domainId, token)
    decreases |raws|
  {
    if raws != [] {
      var n := |raws| - 1;
      SelectedComplete(raws[..n], subdomains, domainId, token);
      forall i | 0 <= i < n && Wanted(raws[i], subdomains)
        ensures FromRaw(raws[i], domainId, token) in Selected(raws, subdomains, domainId, token)
      {
        assert raws[..n][i] == raws[i];
      }
    }
  }

  /**
   * The filter distributes over concatenation, so it keeps the relative
   * order of the records it keeps.
   */
  lemma {:induction false} SelectedAppend(a: seq<RawRecord>, b: seq<RawRecord>, subdomains: seq<Value>,
                                          domainId: Option<string>, token: Value)
    ensures Selected(a + b, subdomains, domainId, token)
            == Selected(a, subdomains, domainId, token) + Selected(b, subdomains, domainId, token)
    decreases |b|
  {
    if b == [] {
      assert a + b == a;
    } else {
      var n := |b| - 1;
      assert (a + b)[..|a + b| - 1] == a + b[..n];
      assert (a + b)[|a + b| - 1] == b[n];
      SelectedAppend(a, b[..n], subdomains, domainId, token);
    }
  }

  /** A record that is not wanted is dropped wherever it stands. */
  lemma SelectedDropsUnwanted(raws: seq<RawRecord>, subdomains: seq<Value>,
                              domainId: Option<string>, token: Value, raw: RawRecord)
    requires !Wanted(raw, subdomains)
    ensures forall r <- Selected(raws, subdomains, domainId, token) :: ToRaw(r) != raw
  {
  }

  // ----- counting events ---------------------------------------------------

  /** How many events of `s` satisfy `p`. */
  function Count(s: seq<Event>, p: Event -> bool): (n: nat)
    ensures n <= |s|
    decreases |s|
  {
    if s == [] then 0 else Count(s[..|s| - 1], p) + (if p(s[|s| - 1]) then 1 else 0)
  }

  lemma {:induction false} CountAppend(a: seq<Event>, b: seq<Event>, p: Event -> bool)
    ensures Count(a + b, p) == Count(a, p) + Count(b, p)
    decreases |b|
  {
    if b == [] {
      assert a + b == a;
    } else {
      var n := |b| - 1;
      assert (a + b)[..|a + b| - 1] == a + b[..n];
      assert (a + b)[|a + b| - 1] == b[n];
      CountAppend(a, b[..n], p);
    }
  }

  lemma CountSingle(e: Event, p: Event -> bool)
    ensures Count([e], p) == if p(e) then 1 else 0
  {
    assert [e][..0] == [];
  }

  /** Nothing is counted exactly when no event satisfies `p`; everything, when all do. */
  lemma {:induction false} CountExtremes(s: seq<Event>, p: Event -> bool)
    ensures Count(s, p) == 0 <==> forall e <- s :: !p(e)
    ensures Count(s, p) == |s| <==> forall e <- s :: p(e)
    decreases |s|
  {
    if s != [] {
      var init := s[..|s| - 1];
      CountExtremes(init, p);
      assert s == init + [s[|s| - 1]];
    }
  }

  /** No record differs exactly when all hold `ip`; all differ exactly when none does. */
  lemma {:induction false} DifferingExtremes(records: seq<Record>, ip: string)
    ensures Differing(records, ip) == 0 <==> forall r <- records :: r.ip == ip
    ensures Differing(records, ip) == |records| <==> forall r <- records :: r.ip != ip
    decreases |records|
  {
    if records != [] {
      var init := records[..|records| - 1];
      DifferingExtremes(init, ip);
      assert records == init + [records[|records| - 1]];
    }
  }

  predicate IsChanging(e: Event) { e.Changing? }
  predicate IsChanged(e: Event) { e.Changed? }

  // ----- one task, one batch -----------------------------------------------

  /** A task settles its record once, and announces and saves only a differing one. */
  lemma TaskCounts(rec: Record, ip: string, resp: Response)
    ensures Count(ProcessRecord(rec, ip, resp).events, Settles) == 1
    ensures Count(ProcessRecord(rec, ip, resp).events, IsChanging) == (if rec.ip == ip then 0 else 1)
    ensures Count(ProcessRecord(rec, ip, resp).events, IsChanged) == (if rec.ip == ip then 0 else 1)
  {
    var t := ProcessRecord(rec, ip, resp);
    var ps: seq<Event -> bool> := [Settles, IsChanging, IsChanged];
    if rec.ip == ip {
      CountSingle(Equal(rec, ip), Settles);
      CountSingle(Equal(rec, ip), IsChanging);
      CountSingle(Equal(rec, ip), IsChanged);
    } else {
      var changed := rec.(ip := ip);
      var call := Save(changed, resp);
      var failed := if call.err.Some? then [SaveError(call.err.value, changed)] else [];
      assert t.events == [Changing(rec, ip)] + failed + [Changed(changed)];
      forall p <- ps
        ensures Count(t.events, p) == Count([Changing(rec, ip)], p) + Count(failed, p) + Count([Changed(changed)], p)
      {
        CountAppend([Changing(rec, ip)] + failed, [Changed(changed)], p);
        CountAppend([Changing(rec, ip)], failed, p);
      }
      if call.err.Some? {
        CountSingle(SaveError(call.err.value, changed), Settles);
        CountSingle(SaveError(call.err.value, changed), IsChanging);
        CountSingle(SaveError(call.err.value, changed), IsChanged);
      }
      CountSingle(Changing(rec, ip), Settles);
      CountSingle(Changing(rec, ip), IsChanging);
      CountSingle(Changing(rec, ip), IsChanged);
      CountSingle(Changed(changed), Settles);
      CountSingle(Changed(changed), IsChanging);
      CountSingle(Changed(changed), IsChanged);
    }
  }

  /** After the batch every record holds the detected IP and nothing else of it changed. */
  lemma {:induction false} ReconcileRecords(records: seq<Record>, ip: string, saveResp: nat -> Response)
    ensures |Reconcile(records, ip, saveResp).records| == |records|
    ensures forall k :: 0 <= k < |records|
                        ==> Reconcile(records, ip, saveResp).records[k] == records[k].(ip := ip)
    decreases |records|
  {
    if records != [] {
      var n := |records| - 1;
      ReconcileRecords(records[..n], ip, saveResp);
      var prev := Reconcile(records[..n], ip, saveResp);
      var t := ProcessRecord(records[n], ip, saveResp(n));
      assert Reconcile(records, ip, saveResp).records == prev.records + [t.record];
      assert t.record == records[n].(ip := ip);
      assert forall k :: 0 <= k < n ==> records[..n][k] == records[k];
    }
  }

  /**
   * The batch saves exactly the differing records, each with the detected
   * IP and the fields of that record.
   */
  lemma {:induction false} ReconcileSaves(records: seq<Record>, ip: string, saveResp: nat -> Response)
    ensures |Reconcile(records, ip, saveResp).sent| == Differing(records, ip)
    ensures forall p <- Reconcile(records, ip, saveResp).sent ::
              p.value == ip
              && exists k :: 0 <= k < |records| && records[k].ip != ip
                             && p == ModifyPayload(records[k].(ip := ip))
    ensures forall k :: 0 <= k < |records| && records[k].ip != ip
                        ==> ModifyPayload(records[k].(ip := ip)) in Reconcile(records, ip, saveResp).sent
    decreases |records|
  {
    if records != [] {
      ReconcileSaves(records[..|records| - 1], ip, saveResp);
    }
    SavesSound(records, ip, saveResp);
    SavesComplete(records, ip, saveResp);
  }

  /** Every save of the batch is that of a differing record, with the detected IP. */
  lemma {:induction false} SavesSound(records: seq<Record>, ip: string, saveResp: nat -> Response)
    ensures forall p <- Reconcile(records, ip, saveResp).sent ::
              p.value == ip
              && exists k :: 0 <= k < |records| && records[k].ip != ip
                             && p == ModifyPayload(records[k].(ip := ip))
    decreases |records|
  {
    if records != [] {
      var n := |records| - 1;
      SavesSound(records[..n], ip, saveResp);
      var b := Reconcile(records, ip, saveResp);
      forall p <- b.sent
        ensures exists k :: 0 <= k < |records| && records[k].ip != ip
                            && p == ModifyPayload(records[k].(ip := ip))
      {
        if p in Reconcile(records[..n], ip, saveResp).sent {
          var k :| 0 <= k < n && records[..n][k].ip != ip && p == ModifyPayload(records[..n][k].(ip := ip));
          assert records[k] == records[..n][k];
        } else {
          assert records[n].ip != ip && p == ModifyPayload(records[n].(ip := ip));
        }
      }
    }
  }

  /** Every differing record of the batch is saved, with the detected IP. */
  lemma {:induction false} SavesComplete(records: seq<Record>, ip: string, saveResp: nat -> Response)
    ensures forall k :: 0 <= k < |records| && records[k].ip != ip
                        ==> ModifyPayload(records[k].(ip := ip)) in Reconcile(records, ip, saveResp).sent
    decreases |records|
  {
    if records != [] {
      var n := |records| - 1;
      SavesComplete(records[..n], ip, saveResp);
      var prev := Reconcile(records[..n], ip, saveResp);
      var t := ProcessRecord(records[n], ip, saveResp(n));
      assert Reconcile(records, ip, saveResp).sent == prev.sent + t.sent;
      forall k | 0 <= k < |records| && records[k].ip != ip
        ensures ModifyPayload(records[k].(ip := ip)) in prev.sent + t.sent
      {
        if k < n {
          assert records[..n][k] == records[k];
        } else {
          assert t.sent[0] in t.sent;
        }
      }
    }
  }

  /**
   * The batch emits only per-record events; each record is settled exactly
   * once, and `changing` and `changed` come once per differing record.
   */
  lemma {:induction false} ReconcileEvents(records: seq<Record>, ip: string, saveResp: nat -> Response)
    ensures forall e <- Reconcile(records, ip, saveResp).events :: TaskEvent(e)
    ensures Count(Reconcile(records, ip, saveResp).events, Settles) == |records|
    ensures Count(Reconcile(records, ip, saveResp).events, IsChanging) == Differing(records, ip)
    ensures Count(Reconcile(records, ip, saveResp).events, IsChanged) == Differing(records, ip)
    decreases |records|
  {
    if records != [] {
      var n := |records| - 1;
      var prev := Reconcile(records[..n], ip, saveResp);
      var t := ProcessRecord(records[n], ip, saveResp(n));
      ReconcileEvents(records[..n], ip, saveResp);
      TaskCounts(records[n], ip, saveResp(n));
      CountAppend(prev.events, t.events, Settles);
      CountAppend(prev.events, t.events, IsChanging);
      CountAppend(prev.events, t.events, IsChanged);
    }
  }

  // ----- whole rounds ------------------------------------------------------

  /** A round fails when the IP cannot be detected or the records cannot be fetched. */
  predicate RoundFailed(subdomains: seq<Value>, domainId: Option<string>, token: Value,
                        detect: Result<string, Error>, fetchResp: Response)
  {
    detect.Err? || Fetched(fetchResp, subdomains, domainId, token).Err?
  }

  /**
   * The frame the final callback puts around the waterfall's events: the
   * events of the steps, then `error` if there was one, then `roundEnd`.
   */
  lemma Frame(events: seq<Event>, failure: seq<Event>)
    requires forall i :: 0 <= i < |events| ==> events[i].Detected? || events[i].Warn? || TaskEvent(events[i])
    requires |failure| <= 1 && forall e <- failure :: e.Failed?
    ensures var t := [Round, Detecting] + events + failure + [RoundEnd];
            t[0] == Round && t[1] == Detecting && t[|t| - 1] == RoundEnd
            && (forall i :: 0 <= i < |t| - 1 ==> t[i] != RoundEnd)
            && (forall i :: 0 <= i < |t| ==> (t[i].Failed? <==> |failure| == 1 && i == |t| - 2))
  {
    var t := [Round, Detecting] + events + failure + [RoundEnd];
    assert t[0] == Round && t[1] == Detecting && t[|t| - 1] == RoundEnd;
    forall i | 2 <= i < 2 + |events|
      ensures t[i] == events[i - 2] && t[i] != RoundEnd && !t[i].Failed?
    {
      assert t[i] == events[i - 2];
    }
    forall i | 2 + |events| <= i < |t| - 1
      ensures t[i] == failure[i - 2 - |events|] && t[i].Failed? && i == |t| - 2
    {
      assert t[i] == failure[i - 2 - |events|];
    }
  }

  /** A called round is the waterfall's outcome inside the final callback's frame. */
  lemma CalledRoundAround(interval: int, subdomains: seq<Value>, domainId: Option<string>, token: Value,
                          detect: Result<string, Error>, fetchResp: Response, saveResp: nat -> Response,
                          events: seq<Event>, err: Option<Error>, records: seq<Record>, sent: seq<Payload>)
    requires Steps(events, err, records, sent) == Waterfall(subdomains, domainId, token, detect, fetchResp, saveResp)
    ensures CalledRound(interval, subdomains, domainId, token, detect, fetchResp, saveResp)
            == RoundResult([Round] + [Detecting] + events + (if err.Some? then [Failed(err.value)] else [])
                           + [RoundEnd], records, sent, Some(After(interval)))
  {
    assert [Round] + [Detecting] == [Round, Detecting];
  }

  /**
   * Every round opens with `round` and `detecting`. When the getter can be
   * called, the round closes with exactly one `roundEnd` and schedules the
   * next round after the interval, whatever went wrong in it; when it
   * cannot, the round stops at `detecting` and nothing is scheduled.
   */
  lemma RoundFraming(interval: int, getter: Value, subdomains: seq<Value>, domainId: Option<string>,
                     token: Value, detect: Result<string, Error>, fetchResp: Response,
                     saveResp: nat -> Response)
    ensures var r := RoundSpec(interval, getter, subdomains, domainId, token, detect, fetchResp, saveResp);
            getter.Fn? ==>
              |r.trace| >= 4 && r.trace[0] == Round && r.trace[1] == Detecting
              && r.trace[|r.trace| - 1] == RoundEnd
              && (forall i :: 0 <= i < |r.trace| - 1 ==> r.trace[i] != RoundEnd)
              && r.next == Some(After(interval))
    ensures var r := RoundSpec(interval, getter, subdomains, domainId, token, detect, fetchResp, saveResp);
            !getter.Fn? ==> r.trace == [Round, Detecting] && r.next == None
  {
    var w := Waterfall(subdomains, domainId, token, detect, fetchResp, saveResp);
    var failure := if w.err.Some? then [Failed(w.err.value)] else [];
    Frame(w.events, failure);
  }

  /** `error` is emitted exactly when a step failed, once, just before `roundEnd`. */
  lemma RoundError(interval: int, subdomains: seq<Value>, domainId: Option<string>, token: Value,
                   detect: Result<string, Error>, fetchResp: Response, saveResp: nat -> Response)
    ensures var r := CalledRound(interval, subdomains, domainId, token, detect, fetchResp, saveResp);
            forall i :: 0 <= i < |r.trace| ==>
              (r.trace[i].Failed? <==> RoundFailed(subdomains, domainId, token, detect, fetchResp)
                                       && i == |r.trace| - 2)
  {
    var w := Waterfall(subdomains, domainId, token, detect, fetchResp, saveResp);
    var failure := if w.err.Some? then [Failed(w.err.value)] else [];
    Frame(w.events, failure);
  }

  /**
   * A failed detection stops the round before any fetch: no `detected`, no
   * records and no save. A successful one is announced once, straight after
   * `detecting`, before anything else happens.
   */
  lemma RoundDetection(interval: int, subdomains: seq<Value>, domainId: Option<string>, token: Value,
                       detect: Result<string, Error>, fetchResp: Response, saveResp: nat -> Response)
    ensures var r := CalledRound(interval, subdomains, domainId, token, detect, fetchResp, saveResp);
            detect.Err? ==> r.trace == [Round, Detecting, Failed(detect.error), RoundEnd]
                            && r.records == [] && r.sent == []
    ensures var r := CalledRound(interval, subdomains, domainId, token, detect, fetchResp, saveResp);
            detect.Ok? ==> r.trace[2] == Detected(detect.value)
                           && forall i :: 0 <= i < |r.trace| && i != 2 ==> !r.trace[i].Detected?
  {
    var w := Waterfall(subdomains, domainId, token, detect, fetchResp, saveResp);
    var failure := if w.err.Some? then [Failed(w.err.value)] else [];
    if detect.Ok? {
      DetectedOnce(detect.value, w.events, failure);
    } else {
      assert w == Steps([], Some(detect.error), [], []);
    }
  }

  /** In the frame of a round, only the waterfall's first event is a `detected`. */
  lemma DetectedOnce(ip: string, events: seq<Event>, failure: seq<Event>)
    requires events != [] && events[0] == Detected(ip)
    requires forall i :: 0 < i < |events| ==> events[i].Warn? || TaskEvent(events[i])
    requires forall e <- failure :: e.Failed?
    ensures var t := [Round, Detecting] + events + failure + [RoundEnd];
            t[2] == Detected(ip) && forall i :: 0 <= i < |t| && i != 2 ==> !t[i].Detected?
  {
    var t := [Round, Detecting] + events + failure + [RoundEnd];
    forall i | 0 <= i < |t| && i != 2
      ensures !t[i].Detected?
    {
      if i < 2 {
        assert t[i] == [Round, Detecting][i];
      } else if i < 2 + |events| {
        assert t[i] == events[i - 2];
        assert events[i - 2].Warn? || TaskEvent(events[i - 2]);
      } else if i < |t| - 1 {
        assert t[i] == failure[i - 2 - |events|] && failure[i - 2 - |events|] in failure;
      } else {
        assert t[i] == RoundEnd;
      }
    }
  }

  /**
   * A failed fetch stops the round after `detected`: `error` with the
   * fetch's error, then `roundEnd`; no record is kept and nothing is saved.
   */
  lemma RoundFetchFailure(interval: int, subdomains: seq<Value>, domainId: Option<string>, token: Value,
                          ip: string, fetchResp: Response, saveResp: nat -> Response)
    requires Fetched(fetchResp, subdomains, domainId, token).Err?
    ensures var r := CalledRound(interval, subdomains, domainId, token, Ok(ip), fetchResp, saveResp);
            r.trace == [Round, Detecting, Detected(ip), Failed(CheckEnvelope(fetchResp).error), RoundEnd]
            && r.records == [] && r.sent == []
  {
    var w := Waterfall(subdomains, domainId, token, Ok(ip), fetchResp, saveResp);
    assert w.err == Some(CheckEnvelope(fetchResp).error);
  }

  /** Zero matching records give `warn` and then `roundEnd`: no error and no save. */
  lemma RoundWithoutRecords(interval: int, subdomains: seq<Value>, domainId: Option<string>, token: Value,
                            ip: string, fetchResp: Response, saveResp: nat -> Response)
    requires Fetched(fetchResp, subdomains, domainId, token) == Ok([])
    ensures var r := CalledRound(interval, subdomains, domainId, token, Ok(ip), fetchResp, saveResp);
            r.trace[|r.trace| - 2] == Warn(NoAvailableSubdomains)
            && (forall e <- r.trace :: !e.Failed? && !TaskEvent(e))
            && r.records == [] && r.sent == []
  {
    var r := CalledRound(interval, subdomains, domainId, token, Ok(ip), fetchResp, saveResp);
    assert r.trace == [Round, Detecting, Detected(ip), Warn(NoAvailableSubdomains), RoundEnd];
  }

  /**
   * A round with N fetched records settles each of them once before
   * `roundEnd`, saves exactly the M differing ones with the detected IP,
   * and leaves every record holding that IP with its other fields intact.
   */
  lemma RoundWithRecords(interval: int, subdomains: seq<Value>, domainId: Option<string>, token: Value,
                         ip: string, fetchResp: Response, saveResp: nat -> Response, fetched: seq<Record>)
    requires Fetched(fetchResp, subdomains, domainId, token) == Ok(fetched)
    requires fetched != []
    ensures var r := CalledRound(interval, subdomains, domainId, token, Ok(ip), fetchResp, saveResp);
            Count(r.trace, Settles) == |fetched|
            && Count(r.trace, IsChanging) == Differing(fetched, ip)
            && Count(r.trace, IsChanged) == Differing(fetched, ip)
            && |r.sent| == Differing(fetched, ip)
            && (forall p <- r.sent :: p.value == ip)
            && (forall k :: 0 <= k < |fetched| && fetched[k].ip != ip
                            ==> ModifyPayload(fetched[k].(ip := ip)) in r.sent)
            && |r.records| == |fetched|
            && (forall k :: 0 <= k < |fetched| ==> r.records[k] == fetched[k].(ip := ip))
            && (forall e <- r.trace :: !e.Failed? && !e.Warn?)
  {
    var b := Reconcile(fetched, ip, saveResp);
    RoundAroundBatch(interval, subdomains, domainId, token, ip, fetchResp, saveResp, fetched);
    ReconcileEvents(fetched, ip, saveResp);
    ReconcileSaves(fetched, ip, saveResp);
    ReconcileRecords(fetched, ip, saveResp);
    FramedTaskEvents(ip, b.events);
  }

  /** The frame of a successful round adds no task event, no `error` and no `warn`. */
  lemma FramedTaskEvents(ip: string, events: seq<Event>)
    requires forall e <- events :: TaskEvent(e)
    ensures var trace := [Round, Detecting, Detected(ip)] + events + [RoundEnd];
            Count(trace, Settles) == Count(events, Settles)
            && Count(trace, IsChanging) == Count(events, IsChanging)
            && Count(trace, IsChanged) == Count(events, IsChanged)
            && (forall e <- trace :: !e.Failed? && !e.Warn?)
  {
    CountAround(ip, events, Settles);
    CountAround(ip, events, IsChanging);
    CountAround(ip, events, IsChanged);
  }

  /** A round with fetched records is the batch of their tasks, framed. */
  lemma RoundAroundBatch(interval: int, subdomains: seq<Value>, domainId: Option<string>, token: Value,
                         ip: string, fetchResp: Response, saveResp: nat -> Response, fetched: seq<Record>)
    requires Fetched(fetchResp, subdomains, domainId, token) == Ok(fetched)
    requires fetched != []
    ensures var b := Reconcile(fetched, ip, saveResp);
            CalledRound(interval, subdomains, domainId, token, Ok(ip), fetchResp, saveResp)
            == RoundResult([Round, Detecting, Detected(ip)] + b.events + [RoundEnd], b.records, b.sent,
                           Some(After(interval)))
  {
    var b := Reconcile(fetched, ip, saveResp);
    var w := Waterfall(subdomains, domainId, token, Ok(ip), fetchResp, saveResp);
    assert w == Steps([Detected(ip)] + b.events, None, b.records, b.sent);
    assert [Round, Detecting] + w.events + [] + [RoundEnd] == [Round, Detecting, Detected(ip)] + b.events + [RoundEnd];
  }

  /** The frame of a successful round adds nothing to the count of task events. */
  lemma CountAround(ip: string, body: seq<Event>, p: Event -> bool)
    requires forall e :: p(e) ==> TaskEvent(e)
    ensures Count([Round, Detecting, Detected(ip)] + body + [RoundEnd], p) == Count(body, p)
  {
    var head := [Round, Detecting, Detected(ip)];
    CountAppend(head + body, [RoundEnd], p);
    CountAppend(head, body, p);
    CountAppend([Round, Detecting], [head[2]], p);
    CountAppend([Round], [Detecting], p);
    assert [Round, Detecting] == [Round] + [Detecting];
    assert head == [Round, Detecting] + [head[2]];
    CountSingle(Round, p);
    CountSingle(Detecting, p);
    CountSingle(head[2], p);
    CountSingle(RoundEnd, p);
  }

  // ----- the IP getter fallback --------------------------------------------

  /**
   * As written, a config built without a getter passes `check()` and is
   * admitted, yet its getter is not a function: its round throws right after
   * `detecting`, with no `error`, no `roundEnd` and no next round.
   */
  lemma GetterlessRoundStalls(token: Value, domain: Value, remoteLang: Value, items: seq<Value>,
                              interval: Option<int>, domainId: Option<string>,
                              detect: Result<string, Error>, fetchResp: Response,
                              saveResp: nat -> Response)
    requires Truthy(token) && Truthy(domain)
    ensures var c := Config.New(token, domain, remoteLang, Arr(items), Undefined, interval);
            Admit(Schema(c)) == Ok(c)
            && RoundSpec(c.interval, c.ipGetter, items, domainId, c.token, detect, fetchResp, saveResp)
               == RoundResult([Round, Detecting], [], [], None)
  {
  }

  /**
   * With the fallback stored, every admitted config built without a getter
   * runs rounds that close with `roundEnd` and schedule the next one.
   */
  lemma DefaultGetterRoundCloses(token: Value, domain: Value, remoteLang: Value, subdomains: Value,
                                 getter: Value, interval: Option<int>, domainId: Option<string>,
                                 detect: Result<string, Error>, fetchResp: Response,
                                 saveResp: nat -> Response)
    ensures var c := Config.NewWithDefaultGetter(token, domain, remoteLang, subdomains, getter, interval);
            var r := RoundSpec(c.interval, c.ipGetter, if subdomains.Arr? then subdomains.items else [],
                               domainId, c.token, detect, fetchResp, saveResp);
            r.trace[|r.trace| - 1] == RoundEnd && r.next == Some(After(c.interval))
  {
    var c := Config.NewWithDefaultGetter(token, domain, remoteLang, subdomains, getter, interval);
    RoundFraming(c.interval, c.ipGetter, if subdomains.Arr? then subdomains.items else [],
                 domainId, c.token, detect, fetchResp, saveResp);
  }
}
