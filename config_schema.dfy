/**
 * The configuration of the updater (lib/config_schema.js): normalised once
 * when it is built, never updated afterwards, and validated by `Check`.
 */
module Config {
  import opened Wrappers
  import opened JsValue

  /** The round interval, in milliseconds, used when none is given. */
  const DefaultInterval: int := 30000

  datatype ConfigSchema = ConfigSchema(
    token: Value,
    domain: Value,
    subdomains: Value,
    interval: int,
    remoteLang: string,
    ipGetter: Value)

  /**
   * `parseFloat(interval) || 30000`. The argument is given already parsed:
   * `None` stands for NaN (nothing numeric could be read from it).
   */
  function NormaliseInterval(parsed: Option<int>): (ms: int)
    ensures ms != 0
    ensures parsed.Some? && parsed.value != 0 ==> ms == parsed.value
    ensures parsed == None || parsed == Some(0) ==> ms == DefaultInterval
  {
    match parsed
    case Some(n) => if n != 0 then n else DefaultInterval
    case None => DefaultInterval
  }

  /** The provider's reply language: anything but exactly "en" means "cn". */
  function NormaliseLang(lang: Value): (r: string)
    ensures r == "en" || r == "cn"
    ensures r == "en" <==> lang == Str("en")
  {
    if lang == Str("en") then "en" else "cn"
  }

  /**
   * The constructor. The source falls back to the IP5 getter when the
   * getter is not a function, but only by rebinding its parameter, after
   * the field has been set: the stored getter is always the argument.
   */
  function New(token: Value, domain: Value, remoteLang: Value, subdomains: Value,
               ipGetter: Value, interval: Option<int>): (c: ConfigSchema)
    ensures c.token == token && c.domain == domain && c.subdomains == subdomains
    ensures c.ipGetter == ipGetter
    ensures c.interval == NormaliseInterval(interval)
    ensures c.remoteLang == NormaliseLang(remoteLang)
  {
    ConfigSchema(token, domain, subdomains, NormaliseInterval(interval),
                 NormaliseLang(remoteLang), ipGetter)
  }

  /**
   * `check()`: a truthy token, a truthy domain and an array of subdomains.
   * The entries of the array are not looked at, and neither is the getter.
   */
  predicate Check(c: ConfigSchema)
    ensures Check(c) <==> Truthy(c.token) && Truthy(c.domain) && c.subdomains.Arr?
  {
    if !Truthy(c.token) || !Truthy(c.domain) then false
    else if !Truthy(c.subdomains) || !c.subdomains.Arr? then false
    else true
  }

  /** `check()` accepts any entries at all: duplicates, non-strings, none. */
  lemma CheckIgnoresEntries(c: ConfigSchema, items: seq<Value>)
    requires Check(c)
    ensures Check(c.(subdomains := Arr(items)))
  {
  }

  /** The getter the source falls back to when it is given none. */
  const DefaultGetter: Value := Fn("IP5")

  /**
   * The constructor as its fallback evidently intends it: a getter that is
   * not a function is replaced by the IP5 getter before it is stored.
   */
  function NewWithDefaultGetter(token: Value, domain: Value, remoteLang: Value, subdomains: Value,
                                ipGetter: Value, interval: Option<int>): (c: ConfigSchema)
    ensures c.ipGetter.Fn?
    ensures c.ipGetter == if ipGetter.Fn? then ipGetter else DefaultGetter
    ensures c == New(token, domain, remoteLang, subdomains, ipGetter, interval).(ipGetter := c.ipGetter)
  {
    var getter := if ipGetter.Fn? then ipGetter else DefaultGetter;
    New(token, domain, remoteLang, subdomains, getter, interval)
  }
}
