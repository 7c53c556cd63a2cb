/**
 * The queue receiver: routes each decoded message to the log or the JSON
 * processor, each of which runs every enabled chute and falls back to the
 * default log munger when nothing was saved and the matching flag is on.
 */
module Receiver {
  import opened Base
  import opened Mungers
  import opened Logs
  import Chutes

  /** The four queue handlers. */
  datatype Consumer = ProcessJsonConsumer | ProcessLogConsumer | CallMonitors | CallWatchdogs

  /** What `consumers.get(queue_type, default)` yields: a handler, or the default as a plain string. */
  datatype ConsumerLookup = Handler(consumer: Consumer) | NotAHandler(text: string)

  /** `get_consumer(queue_type)`, as written: an unknown queue type yields the string `'WATCHDOGS'`. */
  function GetConsumer(queueType: Option<string>): (r: ConsumerLookup)
    ensures queueType == Some("DATACHUTES") <==> r == Handler(ProcessJsonConsumer)
    ensures queueType == Some("LOGCHUTES") <==> r == Handler(ProcessLogConsumer)
    ensures queueType == Some("MONITORS") <==> r == Handler(CallMonitors)
    ensures queueType == Some("WATCHDOGS") <==> r == Handler(CallWatchdogs)
  {
    match queueType
    case Some("DATACHUTES") => Handler(ProcessJsonConsumer)
    case Some("LOGCHUTES") => Handler(ProcessLogConsumer)
    case Some("MONITORS") => Handler(CallMonitors)
    case Some("WATCHDOGS") => Handler(CallWatchdogs)
    case _ => NotAHandler("WATCHDOGS")
  }

  /** The four queue names `get_consumer` knows. */
  predicate KnownQueue(queueType: Option<string>)
  {
    queueType in {Some("DATACHUTES"), Some("LOGCHUTES"), Some("MONITORS"), Some("WATCHDOGS")}
  }

  /** Any other queue type, `None` included, gets a string that cannot be called as a handler. */
  lemma UnknownQueueGetsNoHandler(queueType: Option<string>)
    ensures !KnownQueue(queueType) <==> GetConsumer(queueType) == NotAHandler("WATCHDOGS")
  {
  }

  /** The lookup with the evidently intended default: the watchdog handler itself. */
  function GetHandler(queueType: Option<string>): (c: Consumer)
    ensures KnownQueue(queueType) ==> GetConsumer(queueType) == Handler(c)
    ensures !KnownQueue(queueType) ==> c == CallWatchdogs
  {
    match GetConsumer(queueType)
    case Handler(c) => c
    case NotAHandler(_) => CallWatchdogs
  }

  /** `DEFAULT_DATA_CHUTE_ENABLED`, `DEFAULT_LOG_CHUTE_ENABLED` and `DEFAULT_LOG_MUNGER`. */
  datatype Settings = Settings(dataFallback: bool, logFallback: bool, defaultLogMunger: string)

  /** `get_default_munger()`: the LogMunger named by the setting; logs an error when there is none. */
  method GetDefaultMunger(mungers: seq<Munger>, s: Settings, log: Log) returns (m: Option<Munger>)
    modifies log
    ensures m == FindByName(mungers, s.defaultLogMunger)
    ensures log.entries == old(log.entries) + (if m.None? then [LogMungerNotConfigured(s.defaultLogMunger)] else [])
  {
    m := FindByName(mungers, s.defaultLogMunger);
    if m.None? {
      log.Add(LogMungerNotConfigured(s.defaultLogMunger));
    }
  }

  /** The records `process_json` / `process_log` save, with `fallback` the flag each reads. */
  function SiftOutput(chutes: seq<Chutes.Chute>, mungers: seq<Munger>, fallback: bool, mungerName: string,
                      data: Doc, sm: SieveMatch, env: Env): seq<Record>
  {
    var docId := Get(data, "@uuid");
    var collection := Get(data, "collection");
    var byChutes := Chutes.Outputs(Chutes.FindEnabled(chutes), data, docId, collection, None, sm, env);
    byChutes
    + (if byChutes == [] && fallback then
         match FindByName(mungers, mungerName)
         case None => []
         case Some(m) => [SavedRecord(m, data, docId, collection, None, env)]
       else [])
  }

  /** The errors `process_json` / `process_log` log. */
  function SiftLog(chutes: seq<Chutes.Chute>, mungers: seq<Munger>, fallback: bool, mungerName: string,
                   data: Doc, sm: SieveMatch): seq<LogEntry>
  {
    if Chutes.CountAccepting(Chutes.FindEnabled(chutes), data, sm) == 0 && fallback
       && FindByName(mungers, mungerName).None?
    then [LogMungerNotConfigured(mungerName)]
    else []
  }

  /** The loop `process_json` and `process_log` share. */
  method Sift(chutes: seq<Chutes.Chute>, mungers: seq<Munger>, fallback: bool, s: Settings, store: RecordStore,
              log: Log, data: Doc, sm: SieveMatch, env: Env)
    modifies store, log
    ensures store.records == old(store.records) + SiftOutput(chutes, mungers, fallback, s.defaultLogMunger, data, sm, env)
    ensures log.entries == old(log.entries) + SiftLog(chutes, mungers, fallback, s.defaultLogMunger, data, sm)
  {
    var docId := Get(data, "@uuid");
    var collection := Get(data, "collection");
    var enabled := Chutes.FindEnabled(chutes);
    Chutes.OutputsOnePerAcceptingChute(enabled, data, docId, collection, None, sm, env);
    var saved := Chutes.ProcessAll(enabled, store, data, docId, collection, None, sm, env);
    if !saved && fallback {
      var m := GetDefaultMunger(mungers, s, log);
      if m.Some? {
        var _ := Mungers.Process(m.value, store, data, docId, collection, None, env);
      }
    }
  }

  /** `process_json(data)`: the data chutes, with the data fallback flag. */
  method ProcessJson(dataChutes: seq<Chutes.Chute>, mungers: seq<Munger>, s: Settings, store: RecordStore,
                     log: Log, data: Doc, sm: SieveMatch, env: Env)
    modifies store, log
    ensures store.records == old(store.records) + SiftOutput(dataChutes, mungers, s.dataFallback, s.defaultLogMunger, data, sm, env)
    ensures log.entries == old(log.entries) + SiftLog(dataChutes, mungers, s.dataFallback, s.defaultLogMunger, data, sm)
  {
    Sift(dataChutes, mungers, s.dataFallback, s, store, log, data, sm, env);
  }

  /** `process_log(data)`: the log chutes, with the log fallback flag. */
  method ProcessLog(logChutes: seq<Chutes.Chute>, mungers: seq<Munger>, s: Settings, store: RecordStore,
                    log: Log, data: Doc, sm: SieveMatch, env: Env)
    modifies store, log
    ensures store.records == old(store.records) + SiftOutput(logChutes, mungers, s.logFallback, s.defaultLogMunger, data, sm, env)
    ensures log.entries == old(log.entries) + SiftLog(logChutes, mungers, s.logFallback, s.defaultLogMunger, data, sm)
  {
    Sift(logChutes, mungers, s.logFallback, s, store, log, data, sm, env);
  }

  /**
   * The fallback: when some enabled chute accepts, only the chutes save;
   * otherwise exactly one record is saved by the default munger when the
   * flag is on and the munger exists, and none in every other case.
   * Every record carries the message's `@uuid` and `collection`, `None`
   * for a missing key.
   */
  lemma SiftFallback(chutes: seq<Chutes.Chute>, mungers: seq<Munger>, fallback: bool, mungerName: string,
                     data: Doc, sm: SieveMatch, env: Env)
    ensures var out := SiftOutput(chutes, mungers, fallback, mungerName, data, sm, env);
      var enabled := Chutes.FindEnabled(chutes);
      var m := FindByName(mungers, mungerName);
      var n := Chutes.CountAccepting(enabled, data, sm);
      (n > 0 ==> |out| == n)
      && (n == 0 && fallback && m.Some? ==>
            out == [SavedRecord(m.value, data, Get(data, "@uuid"), Get(data, "collection"), None, env)])
      && (n == 0 && (!fallback || m.None?) ==> out == [])
  {
    var enabled := Chutes.FindEnabled(chutes);
    Chutes.OutputsOnePerAcceptingChute(enabled, data, Get(data, "@uuid"), Get(data, "collection"), None, sm, env);
  }

  /** Which processor `process_msg` runs once the body has been parsed. */
  datatype Route = ToLog | ToJson | Failed

  /**
   * `json.loads` gives `parsed` (`None` when decoding or parsing raises).
   * Only a JSON object can be processed: `'message' in data` raises on
   * numbers, booleans and null, and `data.get` raises on strings and lists,
   * so every other value ends in the logged error.
   */
  function RouteOf(parsed: Option<Json>): (r: Route)
    ensures r == ToLog <==> parsed.Some? && parsed.value.JObject? && "message" in parsed.value.fields
    ensures r == ToJson <==> parsed.Some? && parsed.value.JObject? && "message" !in parsed.value.fields
    ensures r == Failed <==> parsed.None? || !parsed.value.JObject?
  {
    if parsed.Some? && parsed.value.JObject? then
      if "message" in parsed.value.fields then ToLog else ToJson
    else Failed
  }

  /** `process_msg(channel, method, properties, body)`. */
  method ProcessMsg(dataChutes: seq<Chutes.Chute>, logChutes: seq<Chutes.Chute>, mungers: seq<Munger>,
                    s: Settings, store: RecordStore, log: Log, body: string, parsed: Option<Json>,
                    sm: SieveMatch, env: Env)
    modifies store, log
    ensures RouteOf(parsed) == Failed ==>
      store.records == old(store.records) && log.entries == old(log.entries) + [MessageFailed(body)]
    ensures RouteOf(parsed) == ToLog ==>
      store.records == old(store.records) + SiftOutput(logChutes, mungers, s.logFallback, s.defaultLogMunger, parsed.value.fields, sm, env)
      && log.entries == old(log.entries) + SiftLog(logChutes, mungers, s.logFallback, s.defaultLogMunger, parsed.value.fields, sm)
    ensures RouteOf(parsed) == ToJson ==>
      store.records == old(store.records) + SiftOutput(dataChutes, mungers, s.dataFallback, s.defaultLogMunger, parsed.value.fields, sm, env)
      && log.entries == old(log.entries) + SiftLog(dataChutes, mungers, s.dataFallback, s.defaultLogMunger, parsed.value.fields, sm)
  {
    match RouteOf(parsed) {
      case ToLog => ProcessLog(logChutes, mungers, s, store, log, parsed.value.fields, sm, env);
      case ToJson => ProcessJson(dataChutes, mungers, s, store, log, parsed.value.fields, sm, env);
      case Failed => log.Add(MessageFailed(body));
    }
  }

  /** Exactly one of the two processors runs for a parsed object, chosen by the `message` key. */
  lemma ObjectsAreNeverDropped(fields: map<string, Json>)
    ensures RouteOf(Some(JObject(fields))) != Failed
    ensures RouteOf(Some(JObject(fields))) == ToLog <==> "message" in fields
  {
  }
}
