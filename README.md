# dpdd: a Dafny model of the DNSPod dynamic-DNS round

dpdd keeps a set of DNSPod "A" records pointed at the host's current public
IP. It polls forever. Each round does four things:

1. It detects the IP.
2. It fetches the configured records of the domain.
3. It saves only the records whose IP differs.
4. It schedules the next round after a fixed interval, whether or not the round failed.

Embedding code observes every step through events.

This project models the round logic and its three collaborators:

- **Config** (`config_schema.dfy`, from `lib/config_schema.js`): the configuration as a value. It covers the interval fallback to 30000, forcing the language to `"en"` or `"cn"`, the stored IP getter, and `check()`. JavaScript arguments are `JsValue.Value` (`js_value.dfy`), so truthiness and "is an array" can be stated exactly.
- **Envelope** (`envelope.dfy`): the reply check that `lib/ddns.js` and `lib/record.js` each repeat. It is written once as `CheckEnvelope`, over an HTTP status and an optional parsed body. The module also holds the provider's entry shapes and the error taxonomy.
- **Records** (`record.dfy`, from `lib/record.js`):
  - how a raw provider entry becomes a record;
  - the full-field `Record.Modify` payload;
  - `save` as "payload sent, plus the envelope check's verdict".
- **DdnsSpec** (`ddns_spec.dfy`): the pure meaning of `lib/ddns.js`. It covers:
  - the constructor guard;
  - the first-match domain search;
  - the A-record/name filter;
  - the per-record processor;
  - the batch of tasks;
  - the waterfall;
  - the whole round as a function of what the outside world answered.
- **RoundProperties** (`round_properties.dfy`): lemmas about that specification. They cover event order, counting, saves and rescheduling.
- **Ddns** (`ddns.dfy`): the `DDNS` class. It holds the mutable `domainId`, the `started` flag and the queued rounds. `Initialize`, `FetchSpecifiedRecord`, `Start` and `Interval` are imperative methods, proved against the DdnsSpec functions.

A round takes three inputs:

- the IP getter's callback result;
- the `Record.List` reply;
- a function from a record's position in the fetched list to the reply to its save.

It returns four outputs:

- the events in emission order (`DdnsSpec.Event`);
- the fetched records as the round left them;
- the `Record.Modify` payloads sent, one per `save` call, so the number of saves is the length of this list;
- the delay before the next round, or none when the round threw before scheduling one.

`initialize` is not assumed to have run: the round reads `domainId` as it is, which may be `None`.

## Model

| member | source | states |
|---|---|---|
| Config.NormaliseInterval | lib/config_schema.js:28 | the interval is the parsed argument when that is non-zero, and 30000 when it is missing/NaN or zero; it is never 0 |
| Config.NormaliseLang | lib/config_schema.js:31 | the language is "en" exactly when the argument is the string "en", otherwise "cn" |
| Config.New | lib/config_schema.js:20-37 | token, domain and subdomains are stored as given, interval and language normalised; the stored IP getter is exactly the argument |
| Config.Check | lib/config_schema.js:43-47 | `check()` holds iff token and domain are truthy and subdomains is an array |
| Config.CheckIgnoresEntries | lib/config_schema.js:44-46 | `check()` does not look at the entries: duplicates or non-strings in the array are accepted |
| Config.NewWithDefaultGetter | lib/config_schema.js:33-36 | the constructor with the IP5 fallback stored: the getter is always a function, the argument when it is one and IP5 otherwise; every other field is as `New` builds it |
| Envelope.CheckEnvelope | lib/ddns.js:65-82 | a non-200 status, an unparseable body, a missing status and a code other than the string "1" each give their own error, tested in that order; the last error carries status.message; otherwise the parsed body is returned |
| Envelope.NumericCodeRejected | lib/ddns.js:80-82 | a numeric code 1 fails the strict comparison with "1" |
| Records.FromRaw | lib/record.js:29-52 | the record's provider view is exactly the raw entry (id as recordId, value as ip, other fields unchanged), with the given domain id and token |
| Records.FromRawToRaw | lib/record.js:29-52 | the mapping is a bijection: a record is rebuilt from its provider view, domain id and token |
| Records.ModifyPayload | lib/record.js:59-78 | the payload's record fields, read as a provider entry, are the record's view (sub_domain=name, record_type=type, record_line=line, value=ip, mx, ttl, status); domain_id, record_id and login_token come from the record; lang is always "en", format "json" |
| Records.Save | lib/record.js:58-101 | a save sends the record's payload and succeeds iff the reply passes the envelope check; otherwise it carries that check's error |
| Records.SaveUntouchedRoundTrip | lib/record.js:66-76 | building a record from a raw entry and saving it unchanged sends back exactly that entry |
| Records.SaveRetargeted | lib/ddns.js:243-244 | setting the IP before the save changes only the value the update sends |
| DdnsSpec.Admit | lib/ddns.js:29-31 | construction is admitted iff the argument is a ConfigSchema whose check() holds, else "Broken config schema." |
| DdnsSpec.FirstDomain | lib/ddns.js:89-94 | the search stops at the first domain whose name equals the configured domain; no earlier one matches |
| DdnsSpec.FirstIsUnique | lib/ddns.js:89-94 | an index that matches and has no earlier match is the one the search stops at |
| DdnsSpec.DomainLookup | lib/ddns.js:65-96 | envelope errors pass through; an empty domain list is "No target domain"; an id is found iff the reply is accepted and some domain's name equals the configured domain, and it is that of the first such domain; a non-empty list with no match is "No fit domain." |
| DdnsSpec.IndexOf | lib/ddns.js:144 | `indexOf` gives the first index holding the value, and -1 exactly when the value is absent |
| DdnsSpec.Wanted | lib/ddns.js:144 | a raw entry is wanted iff its type is "A" and its name is one of the subdomains |
| DdnsSpec.Fetched | lib/ddns.js:121-150 | the fetch succeeds iff the `Record.List` reply passes the envelope check; otherwise the callback gets that check's error |
| DdnsSpec.Selected | lib/ddns.js:141-150 | every kept record is an A record named in the subdomains, built from one of the raw entries, carrying the domain id and token given |
| DdnsSpec.ProcessRecord | lib/ddns.js:223-263 | an equal record gives only `equal` and no save; a differing one gives `changing` first and `changed` last, one save of the record with the new IP, and `saveError` iff that save fails, carrying the envelope check's error and the record with the new IP; the task emits one event when equal, two after a successful save and three after a failed one; either way the record ends holding the detected IP |
| DdnsSpec.Reconcile | lib/ddns.js:265-271 | a batch of tasks emits only per-record events |
| DdnsSpec.Waterfall | lib/ddns.js:187-272 | a step runs only after the previous one succeeded; an error is handed on iff detection or fetching failed; a failed detection emits nothing and touches no record; a successful one is announced first; a failed fetch emits only `detected` and touches and saves no record |
| DdnsSpec.CalledRound | lib/ddns.js:183-289 | a round whose getter runs opens with `round`, `detecting`, closes with `roundEnd`, and schedules the next round after the interval |
| DdnsSpec.RoundSpec | lib/ddns.js:178-290 | every round opens with `round`, `detecting`; the next round is scheduled iff the getter is a function; a getter that is not one stops the round there, with no record and no save |
| RoundProperties.SelectedComplete | lib/ddns.js:143-148 | every A record whose name is in the subdomains is fetched |
| RoundProperties.SelectedAppend | lib/ddns.js:143-148 | the filter distributes over concatenation, so the fetched records keep their original order |
| RoundProperties.SelectedDropsUnwanted | lib/ddns.js:144 | no record of another type or name is fetched |
| RoundProperties.TaskCounts | lib/ddns.js:225-262 | each task settles its record exactly once (`equal` or `changed`), and emits `changing` and `changed` once if the record differs and never otherwise |
| RoundProperties.ReconcileRecords | lib/ddns.js:225-243 | after the batch each record holds the detected IP and all its other fields are unchanged; equal records are untouched |
| RoundProperties.ReconcileSaves | lib/ddns.js:242-244 | the number of saves equals the number of differing records; each save sends the detected IP and the fields of one differing record, and every differing record is saved |
| RoundProperties.SavesSound | lib/ddns.js:225-244 | every save of the batch sends the detected IP and the fields of a record whose IP differed |
| RoundProperties.SavesComplete | lib/ddns.js:225-244 | every record whose IP differed is saved with the detected IP |
| RoundProperties.DifferingExtremes | lib/ddns.js:225-243 | no record is saved exactly when all already hold the detected IP, and every record is saved exactly when none does |
| RoundProperties.ReconcileEvents | lib/ddns.js:223-271 | the batch settles exactly as many records as it was given, and counts one `changing` and one `changed` per differing record |
| RoundProperties.Frame | lib/ddns.js:273-289 | the final callback puts at most one `error`, directly before the single closing `roundEnd` |
| RoundProperties.RoundFraming | lib/ddns.js:178-290 | every round starts with `round`, `detecting`; with a callable getter it ends with exactly one `roundEnd` and schedules the next round after the interval whether it failed or not; otherwise the trace is just `round`, `detecting` and nothing is scheduled |
| RoundProperties.RoundError | lib/ddns.js:273-281 | `error` appears, once and just before `roundEnd`, exactly when detection or fetching failed |
| RoundProperties.RoundDetection | lib/ddns.js:188-208 | a failed detection gives exactly `round, detecting, error, roundEnd`, no fetched records and no save; a successful one emits `detected(ip)` once, right after `detecting` |
| RoundProperties.RoundFetchFailure | lib/ddns.js:206-289 | a failed fetch gives exactly `round, detecting, detected(ip), error(e), roundEnd` with the fetch's error, no records and no save |
| RoundProperties.RoundWithoutRecords | lib/ddns.js:210-219 | zero fetched records give `warn` then `roundEnd`, with no `error`, no task event and no save |
| RoundProperties.RoundWithRecords | lib/ddns.js:221-271 | with N fetched records, M of them differing: N settling events before `roundEnd`, M `changing`, M `changed`, M saves all sending the detected IP, one for each differing record; every record ends with the detected IP; no `error` or `warn` |
| RoundProperties.GetterlessRoundStalls | lib/config_schema.js:33-36 | a config built without a getter is admitted by the engine, and its round stops at `detecting` with no `roundEnd` and no next round |
| RoundProperties.DefaultGetterRoundCloses | lib/config_schema.js:33-36 | with the fallback stored, every round of the config ends with `roundEnd` and schedules the next one |
| Ddns.DDNS.constructor | lib/ddns.js:33-45 | a built object holds a checked config and its token, subdomains and getter, with domainId null and started false |
| Ddns.DDNS.Create | lib/ddns.js:26-46 | construction fails with "Broken config schema." exactly when the guard rejects; otherwise a fresh object with domainId null, not started, nothing queued |
| Ddns.DDNS.Initialize | lib/ddns.js:52-98 | the callback's error and the new domainId are those of DomainLookup; on every error domainId is left unchanged |
| Ddns.DDNS.FetchSpecifiedRecord | lib/ddns.js:105-152 | envelope errors pass through; otherwise the result is the filtered records in order, each carrying the domainId and token of the call |
| Ddns.DDNS.Start | lib/ddns.js:157-161 | the first call sets started and queues exactly one round on the next tick; a later call changes nothing and queues nothing |
| Ddns.DDNS.Interval | lib/ddns.js:178-290 | the emitted events, the records, the saves and the next delay are exactly those of the round specification; the trace opens with `round`, `detecting`; a next round is scheduled iff the getter is a function, and then the trace closes with `roundEnd` and the next round is due after cfg.interval |
| Ddns.DDNS.RunWaterfall | lib/ddns.js:187-272 | the imperative waterfall gives the events, error, records and saves of its specification |
| Ddns.Process | lib/ddns.js:223-263 | the imperative processor emits, updates and saves exactly as ProcessRecord says |
| Ddns.RunTasks | lib/ddns.js:221-271 | the task loop, finishing when its done-counter reaches the number of records, produces exactly the batch of Reconcile |

## Left out

- IP detection (lib/ip_getters.js): every getter is an HTTP GET plus scraping of a third-party page. A round takes the getter's callback result as an input.
- HTTP transport: spidex requests, timeouts and `.on("error")` handlers are not modelled. Each remote call is modelled by its reply: an HTTP status and an optional parsed body.
  - `fetchSpecifiedRecord` (lib/ddns.js:110-151) attaches no error handler, unlike the other two calls. So a transport failure there is not shown to reach `roundEnd`, and it is outside this model.
- Request fields of `Domain.List` and `Record.List` (token, language, `error_on_empty`, `type`, `domain_id`): not modelled. Only the `Record.Modify` payload is.
- `JSON.parse` and the reply text: an unparseable body is `None`. The text quoted in "Broken server content" is not kept. A reply whose `domains` or `records` is missing is not modelled; in the source that reply throws a TypeError.
- Scarlet(10) concurrency: tasks run one after the other in list order. In the source, the events of different records may interleave, and saves can complete in any order. Within one record the order `changing`, `saveError`, `changed` is the same.
- Records are values. The source mutates `record.ip` on a shared object. The model returns the records as the round left them, and each event carries the record as it was when emitted. So `changing` shows the old IP and `changed` shows the new one.
- Records.Save: `save()` is a function of the record, so it cannot change a field. No separate statement of this is made.
- EventEmitter dispatch: events are appended to a trace. Listener behaviour is not modelled. This includes a listener that throws, and Node's throw on an `error` event with no listener.
- Ddns.DDNS.Interval: a getter that is not a function throws right after `detecting`. The model stops the round there, with no next round. What the exception then does to the process is not modelled.
- Timers: `process.nextTick` and `setTimeout` become the `Delay` values `NextTick` and `After(ms)`. `Start` records its tick in `pending`, and a round returns its `next`. Nothing runs the queued rounds, so "forever" is one round at a time.
- Numbers: `parseFloat` is replaced by an already-parsed `Option<int>`. Fractions, NaN and negative-delay timer behaviour are not modelled. JavaScript numbers in `JsValue.Value` are integers.
- index.js and lib/comment.js hold only re-exports and type comments, so they are not modelled.

## Findings

| source | as written | input that shows it | evidently intended | confidence | as-written member | corrected member |
|---|---|---|---|---|---|---|
| lib/config_schema.js:33-36 | the getter is stored before the fallback, and the fallback only rebinds the constructor's parameter, so a missing getter stays `undefined` | `new ConfigSchema("t", "d", "en", ["www"])`: `check()` holds, the engine is built, and its first round calls `undefined` after `detecting` and throws, with no `roundEnd` and no next round | store IP5 when no getter function is given, so every round can call it | not executed; high | RoundProperties.GetterlessRoundStalls | Config.NewWithDefaultGetter |
