/** The request-logging middleware of lib/logger.js (`initialize`,
    `markStartTime`, `getResponseTime`): which requests are logged, the
    start marks it keeps on the request and the response, and the record
    it logs at info level when the response has finished. */
module RequestLog {
  import opened Js
  import opened Levels
  import opened Logger

  /** A `process.hrtime()` reading: `[seconds, nanoseconds]`. */
  datatype HrTime = HrTime(seconds: int, nanos: int)

  /** The parts of an Express request the middleware uses; `startTime` is
      the `_startTime` mark it resets and sets. */
  class Request {
    const verb: string
    const url: string
    const originalUrl: string
    const ip: string
    const userAgent: Option<string>
    const body: Value
    var startTime: Option<HrTime>

    constructor (verb: string, url: string, originalUrl: string, ip: string, userAgent: Option<string>, body: Value)
      ensures this.verb == verb && this.url == url && this.originalUrl == originalUrl
      ensures this.ip == ip && this.userAgent == userAgent && this.body == body
      ensures startTime == None
    {
      this.verb := verb;
      this.url := url;
      this.originalUrl := originalUrl;
      this.ip := ip;
      this.userAgent := userAgent;
      this.body := body;
      startTime := None;
    }

    /** `markStartTime.call(req)`. */
    method MarkStartTime(now: HrTime)
      modifies this`startTime
      ensures startTime == Some(now)
    {
      startTime := Some(now);
    }
  }

  /** The parts of an Express response the middleware uses; `startTime` is
      the `_startTime` mark set when the headers are written. */
  class Response {
    var statusCode: int
    const session: Value
    var startTime: Option<HrTime>

    constructor (statusCode: int, session: Value)
      ensures this.statusCode == statusCode && this.session == session
      ensures startTime == None
    {
      this.statusCode := statusCode;
      this.session := session;
      startTime := None;
    }

    /** `markStartTime`, run by `onHeaders` on the response. */
    method MarkStartTime(now: HrTime)
      modifies this`startTime
      ensures startTime == Some(now)
    {
      startTime := Some(now);
    }
  }

  /** What the caller's field function sees of the request and response. */
  datatype Exchange = Exchange(verb: string, url: string, ip: string, userAgent: Option<string>,
                               body: Value, statusCode: int, session: Value)

  function Snapshot(req: Request, res: Response): Exchange
    reads req, res
  {
    Exchange(verb := req.verb, url := RequestUrl(req.originalUrl, req.url), ip := req.ip,
             userAgent := req.userAgent, body := req.body, statusCode := res.statusCode, session := res.session)
  }

  /** `req.originalUrl || req.url`. */
  function RequestUrl(originalUrl: string, url: string): (r: string)
    ensures originalUrl != "" ==> r == originalUrl
    ensures originalUrl == "" ==> r == url
  {
    if originalUrl != "" then originalUrl else url
  }

  /** Requests for static resources. */
  predicate IsStaticAsset(url: string) {
    StartsWith(url, "/css") || StartsWith(url, "/javascripts") || StartsWith(url, "/img")
  }

  /** Requests from the Elastic load balancer's health checker. */
  predicate IsHealthCheck(userAgent: Option<string>) {
    userAgent.Some? && userAgent.value != "" && StartsWith(userAgent.value, "ELB-HealthChecker")
  }

  /** The requests the middleware passes on without logging. */
  predicate SkipsLogging(url: string, userAgent: Option<string>) {
    IsStaticAsset(url) || IsHealthCheck(userAgent)
  }

  /** The middleware `log(req, res, next)` up to its call of `next`: a
      request that is skipped is left untouched; any other has both marks
      reset, the request mark set to now, and (as `armed`) the header and
      finish listeners attached.  `next` is called either way. */
  method LogMiddleware(req: Request, res: Response, now: HrTime) returns (armed: bool)
    modifies req`startTime, res`startTime
    ensures armed <==> !SkipsLogging(RequestUrl(req.originalUrl, req.url), req.userAgent)
    ensures armed ==> req.startTime == Some(now) && res.startTime == None
    ensures !armed ==> req.startTime == old(req.startTime) && res.startTime == old(res.startTime)
  {
    var url := RequestUrl(req.originalUrl, req.url);
    if IsStaticAsset(url) {
      return false;
    }
    if IsHealthCheck(req.userAgent) {
      return false;
    }
    req.startTime := None;
    res.startTime := None;
    req.MarkStartTime(now);
    return true;
  }

  /** Nanoseconds from one mark to a later one. */
  function ElapsedNanos(from: HrTime, to: HrTime): int {
    (to.seconds - from.seconds) * 1_000_000_000 + (to.nanos - from.nanos)
  }

  /** `ms` is `ns` nanoseconds to the nearest millisecond, a half rounded
      away from zero. */
  predicate NearestMillis(ns: int, ms: int) {
    && -500_000 <= ns - ms * 1_000_000 <= 500_000
    && (ns - ms * 1_000_000 == 500_000 ==> ns < 0)
    && (ns - ms * 1_000_000 == -500_000 ==> ns > 0)
  }

  /** Every number of nanoseconds has one nearest millisecond. */
  lemma NearestMillisUnique(ns: int, a: int, b: int)
    requires NearestMillis(ns, a) && NearestMillis(ns, b)
    ensures a == b
  {
  }

  /** Nanoseconds rounded to whole milliseconds, halves away from zero, as
      `toFixed(0)` rounds. */
  function RoundToMillis(ns: int): (ms: int)
    ensures NearestMillis(ns, ms)
  {
    if ns >= 0 then (ns + 500_000) / 1_000_000
    else -((-ns + 500_000) / 1_000_000)
  }

  /** `getResponseTime(req, res)` in milliseconds: absent unless both marks
      are set, otherwise the time from the request mark to the response
      mark rounded to the nearest millisecond. */
  function ResponseTime(reqMark: Option<HrTime>, resMark: Option<HrTime>): (ms: Option<int>)
    ensures ms.None? <==> reqMark.None? || resMark.None?
    ensures ms.Some? ==> NearestMillis(ElapsedNanos(reqMark.value, resMark.value), ms.value)
  {
    if resMark.None? || reqMark.None? then None
    else Some(RoundToMillis(ElapsedNanos(reqMark.value, resMark.value)))
  }

  /** The `responseTime` field: the decimal text `toFixed(0)` produces, or
      undefined. */
  function ResponseTimeValue(ms: Option<int>): (v: Value)
    ensures v == Undefined <==> ms.None?
    ensures ms.Some? ==> v.Str? && ParseDecimal(v.s) == ms.value
    ensures ms.Some? ==> v == Str(DecimalText(ms.value))
  {
    DecimalTextRoundTrip(if ms.Some? then ms.value else 0, 0);
    if ms.Some? then Str(DecimalText(ms.value)) else Undefined
  }

  /** The default fields of a request record. */
  function DefaultFields(x: Exchange, timestamp: string, ms: Option<int>): (fields: map<string, Value>)
    ensures fields.Keys == {"method", "status", "url", "ip", "timestamp", "responseTime", "uuid"}
    ensures fields["method"] == Str(x.verb) && fields["status"] == Num(x.statusCode)
    ensures fields["url"] == Str(x.url) && fields["ip"] == Str(x.ip)
    ensures fields["timestamp"] == Str(timestamp) && fields["responseTime"] == ResponseTimeValue(ms)
    ensures fields["uuid"] == x.session
  {
    map["method" := Str(x.verb), "status" := Num(x.statusCode), "url" := Str(x.url), "ip" := Str(x.ip),
        "timestamp" := Str(timestamp), "responseTime" := ResponseTimeValue(ms), "uuid" := x.session]
  }

  /** `Object.assign(defaultFields, fields)`: every key of either, with
      the caller's value where both have one. */
  function MergeFields(defaults: map<string, Value>, caller: map<string, Value>): (record: map<string, Value>)
    ensures record.Keys == defaults.Keys + caller.Keys
    ensures forall k :: k in caller ==> record[k] == caller[k]
    ensures forall k :: k in defaults && k !in caller ==> record[k] == defaults[k]
  {
    defaults + caller
  }

  /** `initFunction ? initFunction(req, res) : {}`. */
  function CallerFields(init: Option<Exchange -> map<string, Value>>, x: Exchange): map<string, Value> {
    if init.Some? then init.value(x) else map[]
  }

  /** The record of a finished request. */
  function RequestRecord(init: Option<Exchange -> map<string, Value>>, x: Exchange, timestamp: string, ms: Option<int>)
    : map<string, Value>
  {
    MergeFields(DefaultFields(x, timestamp, ms), CallerFields(init, x))
  }

  /** The finish listener: `logger.info(Object.assign(defaultFields, fields))`,
      a call whose message is empty and whose metadata is the record. */
  method OnFinished(init: Option<Exchange -> map<string, Value>>, req: Request, res: Response, timestamp: string)
    returns (call: LogCall)
    ensures call.level == Info && call.message == ""
    ensures call.meta == Obj(RequestRecord(init, Snapshot(req, res), timestamp, ResponseTime(req.startTime, res.startTime)))
  {
    var x := Snapshot(req, res);
    var fields := CallerFields(init, x);
    var defaultFields := DefaultFields(x, timestamp, ResponseTime(req.startTime, res.startTime));
    call := LogCall(Info, "", Obj(MergeFields(defaultFields, fields)));
  }

  /** A request's whole life as the middleware sees it: the middleware runs
      at `t0`, the headers are written at `t1` with status `status`, and the
      response finishes.  A skipped request logs nothing; any other logs one
      info record whose response time is the rounded time from `t0` to `t1`
      unless the caller's fields override it. */
  method ServeRequest(init: Option<Exchange -> map<string, Value>>, req: Request, res: Response,
                      t0: HrTime, t1: HrTime, status: int, timestamp: string)
    returns (logged: Option<LogCall>)
    modifies req`startTime, res`startTime, res`statusCode
    ensures logged.None? <==> SkipsLogging(RequestUrl(req.originalUrl, req.url), req.userAgent)
    ensures logged.Some? ==>
      var record := RequestRecord(init, Snapshot(req, res), timestamp, Some(RoundToMillis(ElapsedNanos(t0, t1))));
      && logged.value == LogCall(Info, "", Obj(record))
      && res.statusCode == status
  {
    var armed := LogMiddleware(req, res, t0);
    res.statusCode := status;
    if !armed {
      return None;
    }
    res.MarkStartTime(t1);
    var call := OnFinished(init, req, res, timestamp);
    return Some(call);
  }

  // ---------------------------------------------------------------------
  // Properties

  /** Every request record keeps the default keys (the caller can change
      their values but not remove them), the caller's values win, and the
      defaults the caller does not mention are kept as they are. */
  lemma RecordFields(init: Option<Exchange -> map<string, Value>>, x: Exchange, timestamp: string, ms: Option<int>)
    ensures var record := RequestRecord(init, x, timestamp, ms);
      && "status" in record && "url" in record && "method" in record && "responseTime" in record
      && (forall k :: k in CallerFields(init, x) ==> record[k] == CallerFields(init, x)[k])
      && ("status" !in CallerFields(init, x) ==> record["status"] == Num(x.statusCode))
      && ("url" !in CallerFields(init, x) ==> record["url"] == Str(x.url))
      && ("responseTime" !in CallerFields(init, x) ==> record["responseTime"] == ResponseTimeValue(ms))
      && ("method" !in CallerFields(init, x) ==> record["method"] == Str(x.verb))
      && ("ip" !in CallerFields(init, x) ==> record["ip"] == Str(x.ip))
      && ("timestamp" !in CallerFields(init, x) ==> record["timestamp"] == Str(timestamp))
      && ("uuid" !in CallerFields(init, x) ==> record["uuid"] == x.session)
  {
  }

  /** The console writes every request record as the compact HTTP line,
      with the record's status, ip, method and url. */
  lemma RecordIsCompactLine(init: Option<Exchange -> map<string, Value>>, x: Exchange, timestamp: string, ms: Option<int>)
    ensures var record := RequestRecord(init, x, timestamp, ms);
      var line := ConsoleLayout(Info, "", Obj(record));
      && line.HttpLine?
      && line.status == record["status"]
      && line.ip == record["ip"]
      && line.url == record["url"]
      && line.verb == record["method"]
  {
  }

  /** The static-asset prefixes and the health checker are skipped whatever
      else the request carries; an ordinary page request from a browser
      is logged. */
  lemma SkippedRequests(rest: string, userAgent: Option<string>)
    ensures SkipsLogging("/css" + rest, userAgent)
    ensures SkipsLogging("/javascripts" + rest, userAgent)
    ensures SkipsLogging("/img" + rest, userAgent)
    ensures SkipsLogging("/" + rest, Some("ELB-HealthChecker/2.0"))
    ensures !SkipsLogging("/", Some("Mozilla/5.0"))
  {
    assert ("/css" + rest)[..4] == "/css";
    assert ("/javascripts" + rest)[..12] == "/javascripts";
    assert ("/img" + rest)[..4] == "/img";
    assert "ELB-HealthChecker/2.0"[..17] == "ELB-HealthChecker";
  }
}
